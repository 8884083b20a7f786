/** `getDashboardStats` of server/controllers/dashboardController.js: six
    independent queries whose results are returned together, or a 500 when
    any of them fails. */
module Dashboard {
  import opened Domain
  import opened Seqs
  import opened OrderModel
  import opened Grouping
  import opened SalesPipeline

  /** A document of the users collection (server/models/User.js). */
  datatype UserDoc = UserDoc(
    id: Id,
    username: string,
    email: string,
    password: string,
    role: string,
    isOnline: bool,
    totalOnlineTime: int)

  /** A document of `roles`: `{_id: role, count}`. */
  datatype RoleCount = RoleCount(role: string, count: nat)

  /** A document of `ordersByUser` after `$project`. */
  datatype UserOrders = UserOrders(username: string, totalOrders: nat)

  /** A document of `usersOnlineStats`: `_id` and the four selected fields. */
  datatype OnlineStat = OnlineStat(id: Id, username: string, role: string, totalOnlineTime: int, isOnline: bool)

  datatype Stats = Stats(
    restaurantsCount: nat,
    ordersByRestaurant: seq<RestaurantStat>,
    usersCount: nat,
    roles: seq<RoleCount>,
    ordersByUser: seq<UserOrders>,
    usersOnlineStats: seq<OnlineStat>)

  /** The six store queries, any of which may fail. */
  datatype Query = CountRestaurants | AggregateSales | CountUsers | AggregateRoles | AggregateOrdersByUser | FindUsers

  const StatsFailed: string := "Failed to load dashboard stats"

  function UserRole(u: UserDoc): string { u.role }

  function OrderOwner(o: Order): Id { o.user }

  /** Groups whose documents only count (`{$sum: 1}`) sum nothing else. */
  function NoValue<T>(x: T): int { 0 }

  function RoleCounts(bs: seq<Bucket<string>>): (r: seq<RoleCount>)
    ensures |r| == |bs|
    ensures forall i :: 0 <= i < |bs| ==> r[i] == RoleCount(bs[i].key, bs[i].count)
  {
    seq(|bs|, i requires 0 <= i < |bs| => RoleCount(bs[i].key, bs[i].count))
  }

  /** `User.aggregate([{$group: {_id: '$role', count: {$sum: 1}}}])`. */
  function Roles(users: seq<UserDoc>): seq<RoleCount>
  {
    RoleCounts(GroupBy(EntriesBy(users, UserRole, NoValue)))
  }

  /** The users' roles, one per user. */
  function RolesOf(users: seq<UserDoc>): (r: seq<string>)
    ensures |r| == |users|
    ensures forall i :: 0 <= i < |users| ==> r[i] == users[i].role
  {
    seq(|users|, i requires 0 <= i < |users| => users[i].role)
  }

  /** The orders' owners, one per order. */
  function OwnersOf(orders: seq<Order>): (r: seq<Id>)
    ensures |r| == |orders|
    ensures forall i :: 0 <= i < |orders| ==> r[i] == orders[i].user
  {
    seq(|orders|, i requires 0 <= i < |orders| => orders[i].user)
  }

  function RoleCountSum(rs: seq<RoleCount>): int
  {
    if rs == [] then 0 else rs[0].count + RoleCountSum(rs[1..])
  }

  lemma {:induction false} RoleCountSumBuckets(bs: seq<Bucket<string>>)
    ensures RoleCountSum(RoleCounts(bs)) == CountSum(bs)
  {
    if bs != [] {
      RoleCountSumBuckets(bs[1..]);
      assert RoleCounts(bs)[1..] == RoleCounts(bs[1..]);
    }
  }

  /** `roles` has one document per distinct role, holding the number of users
      with that role. */
  lemma RolesCounted(users: seq<UserDoc>)
    ensures forall i, j :: 0 <= i < j < |Roles(users)| ==> Roles(users)[i].role != Roles(users)[j].role
    ensures forall i :: 0 <= i < |Roles(users)| ==>
      Roles(users)[i].count == multiset(RolesOf(users))[Roles(users)[i].role]
  {
    var es := EntriesBy(users, UserRole, NoValue);
    var bs := GroupBy(es);
    GroupBySpec(es);
    assert Keys(es) == RolesOf(users);
    forall i | 0 <= i < |bs| ensures bs[i].count == multiset(RolesOf(users))[bs[i].key] {
      CountMultiplicity(es, bs[i].key);
    }
  }

  /** A role is listed iff some user holds it. */
  lemma RolesListed(users: seq<UserDoc>, role: string)
    ensures (exists i :: 0 <= i < |Roles(users)| && Roles(users)[i].role == role) <==>
      exists j :: 0 <= j < |users| && users[j].role == role
  {
    var es := EntriesBy(users, UserRole, NoValue);
    var bs := GroupBy(es);
    GroupBySpec(es);
    assert Keys(es) == RolesOf(users);
    CountMultiplicity(es, role);
    if exists i :: 0 <= i < |Roles(users)| && Roles(users)[i].role == role {
      var i :| 0 <= i < |Roles(users)| && Roles(users)[i].role == role;
      assert HasBucket(bs, role);
      assert role in RolesOf(users);
    }
    if exists j :: 0 <= j < |users| && users[j].role == role {
      var j :| 0 <= j < |users| && users[j].role == role;
      assert RolesOf(users)[j] == role;
      var i :| 0 <= i < |bs| && bs[i].key == role;
      assert Roles(users)[i].role == role;
    }
  }

  /** The role counts add up to the number of users. */
  lemma RolesSum(users: seq<UserDoc>)
    ensures RoleCountSum(Roles(users)) == |users|
  {
    var es := EntriesBy(users, UserRole, NoValue);
    GroupByCountSum(es);
    RoleCountSumBuckets(GroupBy(es));
  }

  /** The users whose `_id` is `id` (the `$lookup` from `users`). */
  function UsersWithId(users: seq<UserDoc>, id: Id): seq<UserDoc>
  {
    Filter(users, (u: UserDoc) => u.id == id)
  }

  /** `$lookup` + `$unwind` + `$project` over the per-user groups: one
      document per matching user; a group whose user is gone disappears. */
  function JoinUsers(bs: seq<Bucket<Id>>, users: seq<UserDoc>): seq<UserOrders>
  {
    if bs == [] then []
    else
      var found := UsersWithId(users, bs[0].key);
      seq(|found|, i requires 0 <= i < |found| => UserOrders(found[i].username, bs[0].count))
      + JoinUsers(bs[1..], users)
  }

  /** The user each document of `JoinUsers` belongs to, in output order. */
  function JoinedUsers(bs: seq<Bucket<Id>>, users: seq<UserDoc>): seq<UserDoc>
  {
    if bs == [] then [] else UsersWithId(users, bs[0].key) + JoinedUsers(bs[1..], users)
  }

  /** The whole `ordersByUser` pipeline. */
  function OrdersByUser(orders: seq<Order>, users: seq<UserDoc>): seq<UserOrders>
  {
    JoinUsers(GroupBy(EntriesBy(orders, OrderOwner, NoValue)), users)
  }

  lemma {:induction false} JoinUsersSpec(bs: seq<Bucket<Id>>, users: seq<UserDoc>, s: UserOrders)
    ensures s in JoinUsers(bs, users) <==>
      exists k, u :: 0 <= k < |bs| && u in users && u.id == bs[k].key && s == UserOrders(u.username, bs[k].count)
  {
    if bs != [] {
      JoinUsersSpec(bs[1..], users, s);
      var found := UsersWithId(users, bs[0].key);
      var head := seq(|found|, i requires 0 <= i < |found| => UserOrders(found[i].username, bs[0].count));
      assert JoinUsers(bs, users) == head + JoinUsers(bs[1..], users);
      if s in head {
        var i :| 0 <= i < |found| && head[i] == s;
        FilterMembership(users, (u: UserDoc) => u.id == bs[0].key, found[i]);
        assert found[i] in found;
      }
      if exists k, u :: 0 <= k < |bs[1..]| && u in users && u.id == bs[1..][k].key && s == UserOrders(u.username, bs[1..][k].count) {
        var k, u :| 0 <= k < |bs[1..]| && u in users && u.id == bs[1..][k].key && s == UserOrders(u.username, bs[1..][k].count);
        assert bs[k + 1] == bs[1..][k];
      }
      if exists k, u :: 0 <= k < |bs| && u in users && u.id == bs[k].key && s == UserOrders(u.username, bs[k].count) {
        var k, u :| 0 <= k < |bs| && u in users && u.id == bs[k].key && s == UserOrders(u.username, bs[k].count);
        if k == 0 {
          FilterMembership(users, (u: UserDoc) => u.id == bs[0].key, u);
          var i :| 0 <= i < |found| && found[i] == u;
          assert head[i] == s;
        } else {
          assert bs[1..][k - 1] == bs[k];
        }
      }
    }
  }

  /** Document `i` of the join belongs to user `us[i]`, a user of the
      collection, and carries the count of a bucket with that user's id. */
  lemma {:induction false} JoinUsersShape(bs: seq<Bucket<Id>>, users: seq<UserDoc>)
    ensures var us := JoinedUsers(bs, users);
      && |us| == |JoinUsers(bs, users)|
      && (forall i :: 0 <= i < |us| ==>
            && us[i] in users
            && exists k :: 0 <= k < |bs| && bs[k].key == us[i].id
                 && JoinUsers(bs, users)[i] == UserOrders(us[i].username, bs[k].count))
  {
    if bs != [] {
      var t := bs[1..];
      JoinUsersShape(t, users);
      var found := UsersWithId(users, bs[0].key);
      var head := seq(|found|, i requires 0 <= i < |found| => UserOrders(found[i].username, bs[0].count));
      var us', js' := JoinedUsers(t, users), JoinUsers(t, users);
      var us, js := JoinedUsers(bs, users), JoinUsers(bs, users);
      assert us == found + us' && js == head + js';
      forall i | 0 <= i < |us|
        ensures us[i] in users &&
          exists k :: 0 <= k < |bs| && bs[k].key == us[i].id && js[i] == UserOrders(us[i].username, bs[k].count)
      {
        if i < |found| {
          FilterMembership(users, (u: UserDoc) => u.id == bs[0].key, found[i]);
          assert js[i] == UserOrders(us[i].username, bs[0].count);
        } else {
          var k :| 0 <= k < |t| && t[k].key == us'[i - |found|].id
            && js'[i - |found|] == UserOrders(us'[i - |found|].username, t[k].count);
          assert bs[k + 1] == t[k];
        }
      }
    }
  }

  /** Over buckets with distinct keys, every user whose id has a bucket is
      joined as often as it occurs in the collection, and no other user is. */
  lemma {:induction false} JoinedUsersMultiplicity(bs: seq<Bucket<Id>>, users: seq<UserDoc>, u: UserDoc)
    requires KeysDistinct(bs)
    ensures multiset(JoinedUsers(bs, users))[u] == if HasBucket(bs, u.id) then multiset(users)[u] else 0
  {
    if bs != [] {
      var t := bs[1..];
      JoinedUsersMultiplicity(t, users, u);
      FilterMultiplicity(users, (v: UserDoc) => v.id == bs[0].key, u);
      assert JoinedUsers(bs, users) == UsersWithId(users, bs[0].key) + JoinedUsers(t, users);
      if HasBucket(t, u.id) {
        var k :| 0 <= k < |t| && t[k].key == u.id;
        assert bs[k + 1] == t[k];
      }
      if HasBucket(bs, u.id) && u.id != bs[0].key {
        var k :| 0 <= k < |bs| && bs[k].key == u.id;
        assert t[k - 1] == bs[k];
      }
    }
  }

  /** Over buckets with distinct keys, the join gives one document per pair
      of a bucket and a user with the bucket's id: document `i` belongs to
      user `us[i]` and carries the count of that user's bucket, and every
      user with a bucket appears as often as in the collection. */
  lemma JoinUsersOnePerMatch(bs: seq<Bucket<Id>>, users: seq<UserDoc>)
    requires KeysDistinct(bs)
    ensures var us := JoinedUsers(bs, users);
      && |us| == |JoinUsers(bs, users)|
      && (forall i :: 0 <= i < |us| ==> us[i] in users && HasBucket(bs, us[i].id))
      && (forall i, k :: 0 <= i < |us| && 0 <= k < |bs| && bs[k].key == us[i].id ==>
            JoinUsers(bs, users)[i] == UserOrders(us[i].username, bs[k].count))
      && (forall u: UserDoc :: HasBucket(bs, u.id) ==> multiset(us)[u] == multiset(users)[u])
  {
    JoinUsersShape(bs, users);
    forall u: UserDoc | HasBucket(bs, u.id) ensures multiset(JoinedUsers(bs, users))[u] == multiset(users)[u] {
      JoinedUsersMultiplicity(bs, users, u);
    }
  }

  /** `ordersByUser` lists, for each user still in the collection who owns
      orders, that user's name and the number of orders they own; a document
      for any other id does not appear. */
  lemma OrdersByUserSpec(orders: seq<Order>, users: seq<UserDoc>, s: UserOrders, v: UserDoc)
    ensures s in OrdersByUser(orders, users) ==>
      exists u :: u in users && multiset(OwnersOf(orders))[u.id] > 0 &&
        s == UserOrders(u.username, multiset(OwnersOf(orders))[u.id])
    ensures v in users && multiset(OwnersOf(orders))[v.id] > 0 ==>
      UserOrders(v.username, multiset(OwnersOf(orders))[v.id]) in OrdersByUser(orders, users)
  {
    var es := EntriesBy(orders, OrderOwner, NoValue);
    var bs := GroupBy(es);
    GroupBySpec(es);
    assert Keys(es) == OwnersOf(orders);
    JoinUsersSpec(bs, users, s);
    if s in OrdersByUser(orders, users) {
      var k, u :| 0 <= k < |bs| && u in users && u.id == bs[k].key && s == UserOrders(u.username, bs[k].count);
      CountMultiplicity(es, u.id);
      assert HasBucket(bs, u.id);
    }
    if v in users && multiset(OwnersOf(orders))[v.id] > 0 {
      CountMultiplicity(es, v.id);
      assert HasBucket(bs, v.id);
      var k :| 0 <= k < |bs| && bs[k].key == v.id;
      JoinUsersSpec(bs, users, UserOrders(v.username, bs[k].count));
    }
  }

  /** The user each document of `ordersByUser` belongs to. */
  function OrderingUsers(orders: seq<Order>, users: seq<UserDoc>): seq<UserDoc>
  {
    JoinedUsers(GroupBy(EntriesBy(orders, OrderOwner, NoValue)), users)
  }

  /** `ordersByUser` holds one document per user of the collection who owns
      orders, as many times as that user occurs there: document `i` is user
      `us[i]`'s name and order count, and users owning no order are absent. */
  lemma OrdersByUserOnePerUser(orders: seq<Order>, users: seq<UserDoc>)
    ensures var us := OrderingUsers(orders, users);
      var out := OrdersByUser(orders, users);
      && |us| == |out|
      && (forall i :: 0 <= i < |us| ==>
            && us[i] in users && multiset(OwnersOf(orders))[us[i].id] > 0
            && out[i] == UserOrders(us[i].username, multiset(OwnersOf(orders))[us[i].id]))
      && (forall u: UserDoc :: multiset(OwnersOf(orders))[u.id] > 0 ==> multiset(us)[u] == multiset(users)[u])
  {
    var es := EntriesBy(orders, OrderOwner, NoValue);
    var bs := GroupBy(es);
    var us := JoinedUsers(bs, users);
    GroupBySpec(es);
    assert Keys(es) == OwnersOf(orders);
    JoinUsersOnePerMatch(bs, users);
    forall i | 0 <= i < |us|
      ensures multiset(OwnersOf(orders))[us[i].id] > 0
      ensures OrdersByUser(orders, users)[i] == UserOrders(us[i].username, multiset(OwnersOf(orders))[us[i].id])
    {
      var k :| 0 <= k < |bs| && bs[k].key == us[i].id;
      CountMultiplicity(es, us[i].id);
    }
    forall u: UserDoc | multiset(OwnersOf(orders))[u.id] > 0 ensures multiset(us)[u] == multiset(users)[u] {
      CountMultiplicity(es, u.id);
    }
  }

  /** `User.find({}, 'username role totalOnlineTime isOnline')`: every user,
      with email and password left out. */
  function OnlineStats(users: seq<UserDoc>): (r: seq<OnlineStat>)
    ensures |r| == |users|
    ensures forall i :: 0 <= i < |users| ==>
      && r[i].id == users[i].id && r[i].username == users[i].username && r[i].role == users[i].role
      && r[i].totalOnlineTime == users[i].totalOnlineTime && r[i].isOnline == users[i].isOnline
  {
    seq(|users|, i requires 0 <= i < |users| =>
      OnlineStat(users[i].id, users[i].username, users[i].role, users[i].totalOnlineTime, users[i].isOnline))
  }

  /** The handler: all six results together, or a 500 as soon as one query
      fails, so no partial statistics are ever returned. */
  function GetDashboardStats(restaurants: map<Id, Restaurant>, products: map<Id, Product>,
                             orders: seq<Order>, users: seq<UserDoc>, failed: set<Query>): (r: Response<Stats>)
    ensures failed != {} <==> r == Error(500, StatsFailed)
    ensures r.Ok? ==> r.status == 200
    ensures r.Ok? ==> r.body.restaurantsCount == |restaurants| && r.body.usersCount == |users|
    ensures r.Ok? ==> RoleCountSum(r.body.roles) == r.body.usersCount
    ensures r.Ok? ==> |r.body.usersOnlineStats| == r.body.usersCount
  {
    if failed != {} then Error(500, StatsFailed)
    else
      RolesSum(users);
      Ok(200, Stats(|restaurants|, OrdersByRestaurant(orders, products, restaurants), |users|,
                    Roles(users), OrdersByUser(orders, users), OnlineStats(users)))
  }
}
