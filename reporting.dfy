/** The reporting service: the farm summary, the milk production report and
    the recent-activities feed, computed from a snapshot of the database.
    Each report is a query (filters, then the newest-first ordering of the
    tables' `-date, -created_at`), then a loop that turns the selected
    records into report items. */
module Reporting {
  import opened Collections
  import opened Models

  // ----- Newest-first ordering -----

  /** The sort key of `order_by("-date", "-created_at")`. */
  datatype Stamp = Stamp(date: Date, createdAt: Time)

  /** `a` may come before `b` in newest-first order. */
  predicate NotOlder(a: Stamp, b: Stamp) {
    a.date > b.date || (a.date == b.date && a.createdAt >= b.createdAt)
  }

  ghost predicate NewestFirstOrder<T>(s: seq<T>, stamp: T -> Stamp) {
    forall i, j :: 0 <= i < j < |s| ==> NotOlder(stamp(s[i]), stamp(s[j]))
  }

  /** The position of a newest element of a non-empty sequence. */
  function NewestIndex<T>(s: seq<T>, stamp: T -> Stamp): (i: nat)
    requires |s| > 0
    ensures i < |s|
    ensures forall j :: 0 <= j < |s| ==> NotOlder(stamp(s[i]), stamp(s[j]))
    decreases |s|
  {
    if |s| == 1 then 0
    else
      var k := 1 + NewestIndex(s[1..], stamp);
      assert forall j :: 1 <= j < |s| ==> s[j] == s[1..][j - 1];
      if NotOlder(stamp(s[0]), stamp(s[k])) then 0 else k
  }

  /** The elements of `s` rearranged newest first: a permutation of `s`
      whose stamps never increase along the sequence. */
  function NewestFirst<T>(s: seq<T>, stamp: T -> Stamp): (r: seq<T>)
    ensures multiset(r) == multiset(s)
    ensures NewestFirstOrder(r, stamp)
    decreases |s|
  {
    if s == [] then []
    else
      var i := NewestIndex(s, stamp);
      var rest := s[..i] + s[i + 1..];
      assert s == s[..i] + [s[i]] + s[i + 1..];
      var tail := NewestFirst(rest, stamp);
      NewestBeforeRest(s, stamp, i, tail);
      [s[i]] + tail
  }

  lemma NewestBeforeRest<T>(s: seq<T>, stamp: T -> Stamp, i: nat, tail: seq<T>)
    requires i < |s|
    requires forall j :: 0 <= j < |s| ==> NotOlder(stamp(s[i]), stamp(s[j]))
    requires multiset(tail) == multiset(s[..i] + s[i + 1..])
    requires NewestFirstOrder(tail, stamp)
    ensures NewestFirstOrder([s[i]] + tail, stamp)
  {
    var r := [s[i]] + tail;
    assert s == s[..i] + [s[i]] + s[i + 1..];
    forall a, b | 0 <= a < b < |r| ensures NotOlder(stamp(r[a]), stamp(r[b])) {
      if a > 0 {
        assert r[a] == tail[a - 1] && r[b] == tail[b - 1];
      } else {
        assert r[b] == tail[b - 1] && tail[b - 1] in multiset(tail);
        assert r[b] in multiset(s);
      }
    }
  }

  // ----- Filters shared by both reports -----

  /** `if farm_id: filter(cow__farm_id=farm_id)` */
  predicate OnFarm(db: Db, cow: Id, farm: Option<nat>) {
    Truthy(farm) ==> cow in db.cows && db.cows[cow].farm == farm.value
  }

  /** `if farmer_id: filter(Q(recorded_by_id=...) | Q(cow__farmer_id=...))`:
      the farmer either recorded the row or owns its cow. */
  predicate ByFarmer(db: Db, recordedBy: Id, cow: Id, farmer: Option<nat>) {
    Truthy(farmer) ==> recordedBy == farmer.value || (cow in db.cows && db.cows[cow].farmer == farmer.value)
  }

  /** Both date bounds are inclusive; a date object is always truthy, so a
      bound applies exactly when it is given. */
  predicate InDateRange(date: Date, start: Option<Date>, end: Option<Date>) {
    && (start.Some? ==> start.value <= date)
    && (end.Some? ==> date <= end.value)
  }

  // ----- Farm summary -----

  datatype Summary = Summary(farms: nat, farmers: nat, cows: nat, totalMilkLiters: real)

  function FarmerIds(users: map<Id, User>): set<Id> {
    set k | k in users && users[k].role == Farmer
  }

  /** The sum of the quantities of a sequence of milk records (0 when empty). */
  function TotalQuantity(s: seq<MilkProduction>): real {
    if s == [] then 0.0 else s[0].quantity + TotalQuantity(s[1..])
  }

  lemma {:induction false} TotalQuantityAppend(a: seq<MilkProduction>, b: seq<MilkProduction>)
    ensures TotalQuantity(a + b) == TotalQuantity(a) + TotalQuantity(b)
  {
    if a == [] {
      assert a + b == b;
    } else {
      assert (a + b)[1..] == a[1..] + b;
      TotalQuantityAppend(a[1..], b);
    }
  }

  /** The total does not depend on the order of the records. */
  lemma {:induction false} TotalQuantityPermutation(a: seq<MilkProduction>, b: seq<MilkProduction>)
    requires multiset(a) == multiset(b)
    ensures TotalQuantity(a) == TotalQuantity(b)
    decreases |a|
  {
    if a == [] {
      assert |b| == |multiset(b)| == 0;
    } else {
      var x := a[0];
      assert x in multiset(b);
      var i :| 0 <= i < |b| && b[i] == x;
      var rest := b[..i] + b[i + 1..];
      assert b == b[..i] + ([x] + b[i + 1..]);
      assert a == [x] + a[1..];
      assert multiset(a[1..]) == multiset(a) - multiset{x};
      assert multiset(rest) == multiset(b) - multiset{x};
      TotalQuantityPermutation(a[1..], rest);
      TotalQuantityAppend(b[..i], [x] + b[i + 1..]);
      TotalQuantityAppend([x], b[i + 1..]);
      TotalQuantityAppend(b[..i], b[i + 1..]);
    }
  }

  /** `get_farm_summary`: the number of farms, of users whose role is
      farmer, of cows, and the total quantity of every milk record. */
  function FarmSummary(db: Db): (s: Summary)
    ensures s.farmers <= |db.users|
    ensures s.farms == |db.farms| && s.cows == |db.cows|
    ensures db.milk == map[] ==> s.totalMilkLiters == 0.0
  {
    assert FarmerIds(db.users) <= db.users.Keys;
    SubsetCard(FarmerIds(db.users), db.users.Keys);
    Summary(|db.farms|, |FarmerIds(db.users)|, |db.cows|, TotalQuantity(Rows(db.milk)))
  }

  lemma {:induction false} SubsetCard(a: set<Id>, b: set<Id>)
    requires a <= b
    ensures |a| <= |b|
    decreases b
  {
    if a != {} {
      var x :| x in a;
      SubsetCard(a - {x}, b - {x});
    }
  }

  lemma FarmerIdsAdd(users: map<Id, User>, u: User)
    requires u.id !in users
    ensures |FarmerIds(users[u.id := u])| == |FarmerIds(users)| + (if u.role == Farmer then 1 else 0)
  {
    var before := FarmerIds(users);
    var after := FarmerIds(users[u.id := u]);
    var added := if u.role == Farmer then {u.id} else {};
    assert after == before + added by {
      forall k ensures k in after <==> k in before + added {
        if k != u.id {
          assert k in after <==> k in before;
        }
      }
    }
    assert u.id !in before;
  }

  /** Only users with the farmer role are counted: adding a user raises the
      farmer count by one exactly when the new user is a farmer. */
  lemma SummaryCountsOnlyFarmers(db: Db, u: User)
    requires u.id !in db.users
    ensures FarmSummary(db.(users := db.users[u.id := u])).farmers
            == FarmSummary(db).farmers + (if u.role == Farmer then 1 else 0)
  {
    FarmerIdsAdd(db.users, u);
  }

  // ----- Milk production report -----

  /** The optional filters of `get_milk_production_report`. */
  datatype MilkFilter = MilkFilter(farm: Option<nat>, farmer: Option<nat>, start: Option<Date>, end: Option<Date>)

  predicate MilkMatches(db: Db, f: MilkFilter, m: MilkProduction) {
    && OnFarm(db, m.cow, f.farm)
    && ByFarmer(db, m.recordedBy, m.cow, f.farmer)
    && InDateRange(m.date, f.start, f.end)
  }

  function MilkStamp(m: MilkProduction): Stamp {
    Stamp(m.date, m.createdAt)
  }

  /** The queryset of the milk report: the records every supplied filter
      accepts, in the table's `-date, -created_at` order. */
  function MilkRecords(db: Db, f: MilkFilter): (qs: seq<MilkProduction>)
    ensures NewestFirstOrder(qs, MilkStamp)
    ensures multiset(qs) == multiset(MilkSelected(db, f))
  {
    NewestFirst(MilkSelected(db, f), MilkStamp)
  }

  function MilkKeep(db: Db, f: MilkFilter): MilkProduction -> bool {
    m => MilkMatches(db, f, m)
  }

  /** The matching records in table order, before the ordering is applied. */
  function MilkSelected(db: Db, f: MilkFilter): seq<MilkProduction> {
    Filter(Rows(db.milk), MilkKeep(db, f))
  }

  /** Every selected record is a stored record that every supplied filter accepts. */
  lemma MilkRecordSound(db: Db, f: MilkFilter, m: MilkProduction)
    requires forall k :: k in db.milk ==> db.milk[k].id == k
    requires m in MilkRecords(db, f)
    ensures m.id in db.milk && db.milk[m.id] == m
    ensures MilkMatches(db, f, m)
  {
    assert m in multiset(MilkRecords(db, f));
    assert m in multiset(MilkSelected(db, f));
    assert m in MilkSelected(db, f);
    assert m in Rows(db.milk) && MilkKeep(db, f)(m);
    RowsSound(db.milk, m);
  }

  /** No stored record that every supplied filter accepts is dropped. */
  lemma MilkRecordComplete(db: Db, f: MilkFilter, k: Id)
    requires k in db.milk && MilkMatches(db, f, db.milk[k])
    ensures db.milk[k] in MilkRecords(db, f)
  {
    var m := db.milk[k];
    RowsComplete(db.milk, k);
    assert MilkKeep(db, f)(m);
    assert m in MilkSelected(db, f);
    assert m in multiset(MilkSelected(db, f));
    assert m in multiset(MilkRecords(db, f));
  }

  /** Every filter of `g` is at least as strict as the same filter of `f`. */
  predicate Narrows(g: MilkFilter, f: MilkFilter) {
    && (Truthy(f.farm) ==> g.farm == f.farm)
    && (Truthy(f.farmer) ==> g.farmer == f.farmer)
    && (f.start.Some? ==> g.start.Some? && f.start.value <= g.start.value)
    && (f.end.Some? ==> g.end.Some? && g.end.value <= f.end.value)
  }

  /** Filters compose conjunctively: a record selected under more (or
      tighter) filters is also selected under fewer. */
  lemma NarrowerFilterSubset(db: Db, g: MilkFilter, f: MilkFilter, m: MilkProduction)
    requires Narrows(g, f)
    requires m in MilkRecords(db, g)
    ensures m in MilkRecords(db, f)
  {
    var sg, sf := MilkSelected(db, g), MilkSelected(db, f);
    assert m in multiset(MilkRecords(db, g));
    assert m in multiset(sg);
    assert m in sg;
    assert MilkKeep(db, g)(m);
    NarrowsImplies(db, g, f, m);
    assert MilkKeep(db, f)(m);
    assert m in sf;
    assert m in multiset(MilkRecords(db, f));
  }

  /** Supplying more (or tighter) filters never makes the report longer. */
  lemma NarrowerFilterSmallerReport(db: Db, g: MilkFilter, f: MilkFilter)
    requires Narrows(g, f)
    ensures |MilkRecords(db, g)| <= |MilkRecords(db, f)|
  {
    var rows := Rows(db.milk);
    forall m | m in rows && MilkKeep(db, g)(m) ensures MilkKeep(db, f)(m) {
      NarrowsImplies(db, g, f, m);
    }
    FilterMonotone(rows, MilkKeep(db, g), MilkKeep(db, f));
    var narrow, wide := MilkRecords(db, g), MilkRecords(db, f);
    assert |narrow| == |multiset(narrow)| == |multiset(MilkSelected(db, g))| == |MilkSelected(db, g)|;
    assert |wide| == |multiset(wide)| == |multiset(MilkSelected(db, f))| == |MilkSelected(db, f)|;
  }

  lemma NarrowsImplies(db: Db, g: MilkFilter, f: MilkFilter, m: MilkProduction)
    requires Narrows(g, f) && MilkMatches(db, g, m)
    ensures MilkMatches(db, f, m)
  {
  }

  /** With no filter supplied the report's total is the summary's total. */
  lemma UnfilteredReportTotalIsSummaryTotal(db: Db)
    ensures TotalQuantity(MilkRecords(db, MilkFilter(None, None, None, None))) == FarmSummary(db).totalMilkLiters
  {
    var f := MilkFilter(None, None, None, None);
    FilterKeepsAll(Rows(db.milk), MilkKeep(db, f));
    TotalQuantityPermutation(MilkRecords(db, f), Rows(db.milk));
  }

  /** One entry of the report's `items`. Each reference is followed only when
      its target exists, as the `... if cow else None` guards do. */
  datatype MilkItem = MilkItem(
    id: Id, date: Date, quantity: real,
    cowId: Option<Id>, cowTagNumber: Option<string>,
    farmId: Option<Id>, farmName: Option<string>,
    farmerId: Option<Id>, farmerUsername: Option<string>)

  datatype MilkReport = MilkReport(count: nat, totalLiters: real, items: seq<MilkItem>)

  function CowOf(db: Db, cow: Id): Option<Cow> {
    if cow in db.cows then Some(db.cows[cow]) else None
  }

  function FarmOfCow(db: Db, cow: Option<Cow>): Option<Farm> {
    if cow.Some? && cow.value.farm in db.farms then Some(db.farms[cow.value.farm]) else None
  }

  function UserOf(db: Db, user: Id): Option<User> {
    if user in db.users then Some(db.users[user]) else None
  }

  /** The item for one record: the farm is the cow's farm, the farmer is
      whoever recorded it. */
  function MilkItemOf(db: Db, m: MilkProduction): MilkItem {
    var cow := CowOf(db, m.cow);
    var farm := FarmOfCow(db, cow);
    var farmer := UserOf(db, m.recordedBy);
    MilkItem(
      m.id, m.date, m.quantity,
      if cow.Some? then Some(cow.value.id) else None,
      if cow.Some? then Some(cow.value.tagNumber) else None,
      if farm.Some? then Some(farm.value.id) else None,
      if farm.Some? then Some(farm.value.name) else None,
      if farmer.Some? then Some(farmer.value.id) else None,
      if farmer.Some? then Some(farmer.value.username) else None)
  }

  /** In a consistent database every reference of a stored record resolves:
      the item names the cow's farm, and it credits the recorder even when
      someone else owns the cow. */
  lemma MilkItemAttribution(db: Db, k: Id)
    requires DbValid(db) && k in db.milk
    ensures var m := db.milk[k]; var item := MilkItemOf(db, m);
      && item.id == k && item.quantity == m.quantity && item.date == m.date
      && item.cowId == Some(m.cow)
      && item.farmId == Some(db.cows[m.cow].farm)
      && item.farmerId == Some(m.recordedBy)
      && (db.cows[m.cow].farmer != m.recordedBy ==> item.farmerId != Some(db.cows[m.cow].farmer))
  {
    var m := db.milk[k];
    assert m.cow in db.cows && m.recordedBy in db.users;
    assert db.cows[m.cow].farm in db.farms;
  }

  function ItemsTotal(items: seq<MilkItem>): real {
    if items == [] then 0.0 else items[0].quantity + ItemsTotal(items[1..])
  }

  lemma {:induction false} ItemsTotalAppend(a: seq<MilkItem>, b: seq<MilkItem>)
    ensures ItemsTotal(a + b) == ItemsTotal(a) + ItemsTotal(b)
  {
    if a == [] {
      assert a + b == b;
    } else {
      assert (a + b)[1..] == a[1..] + b;
      ItemsTotalAppend(a[1..], b);
    }
  }

  /** The loop of `get_milk_production_report` that appends one item per
      record; the items' quantities add up to the records' total. */
  method MilkItems(db: Db, qs: seq<MilkProduction>) returns (items: seq<MilkItem>)
    ensures |items| == |qs|
    ensures forall i :: 0 <= i < |items| ==> items[i] == MilkItemOf(db, qs[i])
    ensures ItemsTotal(items) == TotalQuantity(qs)
  {
    items := [];
    var i := 0;
    while i < |qs|
      invariant 0 <= i <= |qs| && |items| == i
      invariant forall j :: 0 <= j < i ==> items[j] == MilkItemOf(db, qs[j])
      invariant ItemsTotal(items) == TotalQuantity(qs[..i])
    {
      var m := qs[i];
      ItemsTotalAppend(items, [MilkItemOf(db, m)]);
      TotalQuantityAppend(qs[..i], [m]);
      assert qs[..i + 1] == qs[..i] + [m];
      items := items + [MilkItemOf(db, m)];
      i := i + 1;
    }
    assert qs[..i] == qs;
  }

  /** `get_milk_production_report`: one item per selected record, in the
      query's order; `count` is the number of items and `total_liters` the
      sum of their quantities, which is the sum over the selected records. */
  method MilkProductionReport(db: Db, f: MilkFilter) returns (r: MilkReport)
    ensures r.count == |r.items| == |MilkRecords(db, f)|
    ensures forall i :: 0 <= i < |r.items| ==> r.items[i] == MilkItemOf(db, MilkRecords(db, f)[i])
    ensures r.totalLiters == ItemsTotal(r.items) == TotalQuantity(MilkSelected(db, f))
  {
    var qs := MilkRecords(db, f);
    var total := TotalQuantity(qs);
    var items := MilkItems(db, qs);
    TotalQuantityPermutation(qs, MilkSelected(db, f));
    r := MilkReport(|qs|, total, items);
  }

  // ----- Recent activities -----

  /** The optional filters of `get_recent_activities`. */
  datatype ActivityFilter = ActivityFilter(
    farm: Option<nat>, farmer: Option<nat>, cow: Option<nat>,
    start: Option<Date>, end: Option<Date>)

  predicate ActivityMatches(db: Db, f: ActivityFilter, a: Activity) {
    && OnFarm(db, a.cow, f.farm)
    && ByFarmer(db, a.recordedBy, a.cow, f.farmer)
    && (Truthy(f.cow) ==> a.cow == f.cow.value)
    && InDateRange(a.date, f.start, f.end)
  }

  function ActivityStamp(a: Activity): Stamp {
    Stamp(a.date, a.createdAt)
  }

  /** `max(0, int(limit)) or 10`: a positive limit is used as given, any
      other value falls back to 10. */
  function EffectiveLimit(limit: int): (n: nat)
    ensures 0 < n
    ensures limit > 0 ==> n == limit
    ensures limit <= 0 ==> n == 10
  {
    var clamped := if limit < 0 then 0 else limit;
    if clamped != 0 then clamped else 10
  }

  /** The first `n` elements of `s`, or all of them when there are fewer. */
  function Take<T>(s: seq<T>, n: nat): (r: seq<T>)
    ensures |r| <= n && |r| <= |s|
    ensures |r| == n || r == s
    ensures r == s[..|r|]
  {
    if n <= |s| then s[..n] else s
  }

  function ActivityKeep(db: Db, f: ActivityFilter): Activity -> bool {
    a => ActivityMatches(db, f, a)
  }

  /** The matching activities in table order. */
  function ActivitiesSelected(db: Db, f: ActivityFilter): seq<Activity> {
    Filter(Rows(db.activities), ActivityKeep(db, f))
  }

  /** The matching activities, newest first, before the limit is applied. */
  function ActivitiesNewestFirst(db: Db, f: ActivityFilter): (all: seq<Activity>)
    ensures multiset(all) == multiset(ActivitiesSelected(db, f))
    ensures NewestFirstOrder(all, ActivityStamp)
  {
    NewestFirst(ActivitiesSelected(db, f), ActivityStamp)
  }

  /** The queryset of the activity feed: the matching activities newest
      first, cut to the effective limit. */
  function RecentActivityRecords(db: Db, f: ActivityFilter, limit: int): (qs: seq<Activity>)
    ensures |qs| <= EffectiveLimit(limit)
    ensures NewestFirstOrder(qs, ActivityStamp)
  {
    var all := ActivitiesNewestFirst(db, f);
    var qs := Take(all, EffectiveLimit(limit));
    assert forall i, j :: 0 <= i < j < |qs| ==> qs[i] == all[i] && qs[j] == all[j];
    qs
  }

  /** Every activity in the feed is a stored activity that every supplied filter accepts. */
  lemma RecentActivitySound(db: Db, f: ActivityFilter, limit: int, a: Activity)
    requires forall k :: k in db.activities ==> db.activities[k].id == k
    requires a in RecentActivityRecords(db, f, limit)
    ensures a.id in db.activities && db.activities[a.id] == a
    ensures ActivityMatches(db, f, a)
  {
    var all := ActivitiesNewestFirst(db, f);
    assert a in all;
    assert a in multiset(all);
    assert a in multiset(ActivitiesSelected(db, f));
    assert a in ActivitiesSelected(db, f);
    assert a in Rows(db.activities) && ActivityKeep(db, f)(a);
    RowsSound(db.activities, a);
  }

  /** Cutting a newest-first sequence to `n` elements keeps the newest: an
      element cut off is no newer than any element kept, and something is
      cut off only when `n` elements are kept. */
  lemma TakeKeepsNewest<T>(all: seq<T>, stamp: T -> Stamp, n: nat, j: nat)
    requires NewestFirstOrder(all, stamp) && j < |all|
    ensures || all[j] in Take(all, n)
            || (|Take(all, n)| == n && forall a :: a in Take(all, n) ==> NotOlder(stamp(a), stamp(all[j])))
  {
    var qs := Take(all, n);
    if j < |qs| {
      assert qs[j] == all[j];
    } else {
      forall a | a in qs ensures NotOlder(stamp(a), stamp(all[j])) {
        var i :| 0 <= i < |qs| && qs[i] == a;
        assert all[i] == a;
      }
    }
  }

  /** The feed holds the most recent matching activities: a matching
      activity is left out only when the feed is full and every activity in
      it is at least as recent. */
  lemma RecentActivitiesAreNewest(db: Db, f: ActivityFilter, limit: int, k: Id)
    requires k in db.activities && ActivityMatches(db, f, db.activities[k])
    ensures var qs := RecentActivityRecords(db, f, limit);
      || db.activities[k] in qs
      || (|qs| == EffectiveLimit(limit) &&
          forall a :: a in qs ==> NotOlder(ActivityStamp(a), ActivityStamp(db.activities[k])))
  {
    var x := db.activities[k];
    var all := ActivitiesNewestFirst(db, f);
    ActivityMatchIsSelected(db, f, k);
    var j :| 0 <= j < |all| && all[j] == x;
    TakeKeepsNewest(all, ActivityStamp, EffectiveLimit(limit), j);
  }

  /** Before the limit, no matching activity is dropped. */
  lemma ActivityMatchIsSelected(db: Db, f: ActivityFilter, k: Id)
    requires k in db.activities && ActivityMatches(db, f, db.activities[k])
    ensures db.activities[k] in ActivitiesNewestFirst(db, f)
  {
    var x := db.activities[k];
    RowsComplete(db.activities, k);
    assert ActivityKeep(db, f)(x);
    assert x in ActivitiesSelected(db, f);
    assert x in multiset(ActivitiesSelected(db, f));
    assert x in multiset(ActivitiesNewestFirst(db, f));
  }

  /** One entry of the activity feed. */
  datatype ActivityItem = ActivityItem(
    id: Id, date: Date, activityType: string,
    cowId: Option<Id>, cowTagNumber: Option<string>,
    farmId: Option<Id>, farmName: Option<string>,
    recordedById: Option<Id>, recordedByUsername: Option<string>)

  function ActivityItemOf(db: Db, a: Activity): ActivityItem {
    var cow := CowOf(db, a.cow);
    var farm := FarmOfCow(db, cow);
    var user := UserOf(db, a.recordedBy);
    ActivityItem(
      a.id, a.date, a.activityType,
      if cow.Some? then Some(cow.value.id) else None,
      if cow.Some? then Some(cow.value.tagNumber) else None,
      if farm.Some? then Some(farm.value.id) else None,
      if farm.Some? then Some(farm.value.name) else None,
      if user.Some? then Some(user.value.id) else None,
      if user.Some? then Some(user.value.username) else None)
  }

  /** The loop of `get_recent_activities` that appends one item per activity. */
  method ActivityItems(db: Db, qs: seq<Activity>) returns (items: seq<ActivityItem>)
    ensures |items| == |qs|
    ensures forall i :: 0 <= i < |items| ==> items[i] == ActivityItemOf(db, qs[i])
  {
    items := [];
    var i := 0;
    while i < |qs|
      invariant 0 <= i <= |qs| && |items| == i
      invariant forall j :: 0 <= j < i ==> items[j] == ActivityItemOf(db, qs[j])
    {
      items := items + [ActivityItemOf(db, qs[i])];
      i := i + 1;
    }
  }

  /** `get_recent_activities`: one item per activity of the feed, in order,
      and never more than the effective limit. */
  method RecentActivities(db: Db, f: ActivityFilter, limit: int) returns (items: seq<ActivityItem>)
    ensures |items| == |RecentActivityRecords(db, f, limit)| <= EffectiveLimit(limit)
    ensures forall i :: 0 <= i < |items| ==> items[i] == ActivityItemOf(db, RecentActivityRecords(db, f, limit)[i])
  {
    items := ActivityItems(db, RecentActivityRecords(db, f, limit));
  }
}
