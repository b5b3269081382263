/** The daily referral-level job: users with more than one friend and a
    level below 9 are read page by page; for each, the friends' margins are
    weighted by friend tier and added to the user's accumulated friends'
    margin, and the level derived from that total replaces the user's level
    only when it is higher. The friend query, the per-friend margin query and
    the level table are inputs (the margin query as its grouped rows), as is
    the set of users whose processing raises an error. */
module UsersSchedule {
  import opened Types
  import opened Db

  const PageSize: nat := 100

  /** Levels at or above this one are never re-examined. */
  const MaxLevel: int := 9

  /** The `where` of the job: more than one friend and a level below 9. */
  predicate Eligible(u: User)
  {
    u.totalFriends > 1 && u.level < MaxLevel
  }

  /** The margin rate of a friend tier: F1 10%, F2 5%, F3 3%, F4 1%, and
      nothing for any other tier. */
  function Rate(tier: int): (r: real)
    ensures r > 0.0 <==> 1 <= tier <= 4
    ensures r <= 0.1
    ensures tier < 1 || tier > 4 ==> r == 0.0
  {
    if tier == 1 then 0.1 else if tier == 2 then 0.05 else if tier == 3 then 0.03 else if tier == 4 then 0.01 else 0.0
  }

  /** Which friends the friend query returns. */
  datatype Scope = AllTiers | F1Only

  /** Partners count friends of every tier, everybody else only F1. */
  function ScopeOf(isPartner: bool): (s: Scope)
    ensures s == AllTiers <==> isPartner
  {
    if isPartner then AllTiers else F1Only
  }

  /** A friend returned by the friend query, with its tier relative to the
      user (None when the hierarchy gives no tier). */
  datatype Friend = Friend(id: string, tier: Option<int>)

  function MarginOf(margins: map<string, real>, id: string): real
  {
    if id in margins then margins[id] else 0.0
  }

  /** What one friend adds: rate times margin, or nothing without a tier, a
      rate or a margin entry. */
  function FriendShare(f: Friend, margins: map<string, real>): (s: real)
    ensures f.tier.None? ==> s == 0.0
    ensures f.tier.Some? ==> s == Rate(f.tier.value) * MarginOf(margins, f.id)
    ensures f.id !in margins ==> s == 0.0
  {
    if f.tier.None? then 0.0
    else
      var rate := Rate(f.tier.value);
      if rate == 0.0 then 0.0 else rate * MarginOf(margins, f.id)
  }

  /** The weighted sum, as the `reduce` from 0 over the friends. */
  function WeightedMargin(friends: seq<Friend>, margins: map<string, real>): real
  {
    if friends == [] then 0.0
    else WeightedMargin(friends[..|friends| - 1], margins) + FriendShare(friends[|friends| - 1], margins)
  }

  /** The weighted sum splits over any split of the friend list. */
  lemma {:induction false} WeightedMarginAppend(a: seq<Friend>, b: seq<Friend>, margins: map<string, real>)
    ensures WeightedMargin(a + b, margins) == WeightedMargin(a, margins) + WeightedMargin(b, margins)
  {
    if b == [] {
      assert a + b == a;
    } else {
      assert (a + b)[..|a + b| - 1] == a + b[..|b| - 1];
      WeightedMarginAppend(a, b[..|b| - 1], margins);
    }
  }

  /** Friends without a rated tier or without a margin add nothing. */
  lemma {:induction false} UnratedFriendsAddNothing(friends: seq<Friend>, margins: map<string, real>)
    requires forall i :: 0 <= i < |friends| ==>
      friends[i].tier.None? || Rate(friends[i].tier.value) == 0.0 || friends[i].id !in margins
    ensures WeightedMargin(friends, margins) == 0.0
  {
    if friends != [] {
      var prefix := friends[..|friends| - 1];
      assert forall i :: 0 <= i < |prefix| ==> prefix[i] == friends[i];
      UnratedFriendsAddNothing(prefix, margins);
    }
  }

  /** With no negative margin the weighted sum is between 0 and a tenth of
      the friends' margins. */
  lemma {:induction false} WeightedMarginBounds(friends: seq<Friend>, margins: map<string, real>)
    requires forall id :: id in margins ==> margins[id] >= 0.0
    ensures 0.0 <= WeightedMargin(friends, margins) <= 0.1 * PlainMargin(friends, margins)
  {
    if friends != [] {
      WeightedMarginBounds(friends[..|friends| - 1], margins);
      var f := friends[|friends| - 1];
      if f.tier.Some? {
        assert Rate(f.tier.value) * MarginOf(margins, f.id) <= 0.1 * MarginOf(margins, f.id);
      }
    }
  }

  /** The friends' margins, unweighted. */
  function PlainMargin(friends: seq<Friend>, margins: map<string, real>): real
  {
    if friends == [] then 0.0
    else PlainMargin(friends[..|friends| - 1], margins) + MarginOf(margins, friends[|friends| - 1].id)
  }

  /** The derived level is written only when it is higher. */
  function NextLevel(current: int, derived: int): (l: int)
    ensures l >= current
    ensures l == current || l == derived
    ensures l > current <==> derived > current
  {
    if derived > current then derived else current
  }

  /** The friends' margin accumulated so far (0 without a stat row). */
  function PriorMargin(stats: map<string, UserStat>, id: string): real
  {
    if id in stats then stats[id].totalFriendsMargin else 0.0
  }

  /** The instant from which friends' insurances count (the epoch without a
      stat row). */
  function Since(stats: map<string, UserStat>, id: string): int
  {
    if id in stats then stats[id].lastCheckLevelTime else 0
  }

  /** One row of the margin query grouped by user: a user id and the sum of
      that user's margins. */
  datatype MarginGroup = MarginGroup(userId: string, sum: real)

  /** The grouped rows' user ids are distinct, as a group-by returns them. */
  predicate DistinctUsers(groups: seq<MarginGroup>)
  {
    forall i, j :: 0 <= i < j < |groups| ==> groups[i].userId != groups[j].userId
  }

  /** The margin lookup table by user id, folded from an empty table: every
      grouped row is found under its user id with its own sum, and no other
      key is present. */
  function MarginMap(groups: seq<MarginGroup>): (m: map<string, real>)
    ensures forall i :: 0 <= i < |groups| ==> groups[i].userId in m
    ensures forall k :: k in m ==> exists i :: 0 <= i < |groups| && groups[i].userId == k && m[k] == groups[i].sum
    ensures DistinctUsers(groups) ==> forall i :: 0 <= i < |groups| ==> m[groups[i].userId] == groups[i].sum
  {
    if groups == [] then map[]
    else
      var last := groups[|groups| - 1];
      MarginMap(groups[..|groups| - 1])[last.userId := last.sum]
  }

  /** The lookup table as the job builds it: a `reduce` without an initial
      value, which throws on no rows (absent here) and otherwise starts from
      the first row itself, so that the first row's user is never a key. The
      first row's own two field names, which also become keys, are left out. */
  function MarginMapAsWritten(groups: seq<MarginGroup>): (r: Option<map<string, real>>)
    ensures r.None? <==> groups == []
    ensures r.Some? && DistinctUsers(groups) ==> groups[0].userId !in r.value
  {
    if groups == [] then None else Some(MarginMap(groups[1..]))
  }

  /** A user whose only counted friend is an F1 with margin `m` gets nothing
      from the table as built, and a tenth of `m` from the intended one. */
  lemma ReduceDropsFirstGroup(f: Friend, m: real)
    requires f.tier == Some(1) && m > 0.0
    ensures MarginMapAsWritten([MarginGroup(f.id, m)]) == Some(map[])
    ensures WeightedMargin([f], MarginMapAsWritten([MarginGroup(f.id, m)]).value) == 0.0
    ensures WeightedMargin([f], MarginMap([MarginGroup(f.id, m)])) == 0.1 * m
  {
    assert [MarginGroup(f.id, m)][1..] == [];
    assert [f][..0] == [];
  }

  /** The user's new accumulated friends' margin: the old total plus the
      weighted margins of the friends in the user's scope. */
  function Accrued(users: map<string, User>, stats: map<string, UserStat>, id: string,
                   friendsOf: (string, Scope) -> seq<Friend>,
                   marginsOf: (seq<Friend>, int) -> seq<MarginGroup>): real
    requires id in users
  {
    var friends := friendsOf(id, ScopeOf(users[id].isPartner));
    PriorMargin(stats, id) + WeightedMargin(friends, MarginMap(marginsOf(friends, Since(stats, id))))
  }

  /** Without negative margins the accumulated total never shrinks. */
  lemma AccruedGrows(users: map<string, User>, stats: map<string, UserStat>, id: string,
                     friendsOf: (string, Scope) -> seq<Friend>,
                     marginsOf: (seq<Friend>, int) -> seq<MarginGroup>)
    requires id in users
    requires var friends := friendsOf(id, ScopeOf(users[id].isPartner));
      var groups := marginsOf(friends, Since(stats, id));
      forall i :: 0 <= i < |groups| ==> groups[i].sum >= 0.0
    ensures Accrued(users, stats, id, friendsOf, marginsOf) >= PriorMargin(stats, id)
  {
    var friends := friendsOf(id, ScopeOf(users[id].isPartner));
    WeightedMarginBounds(friends, MarginMap(marginsOf(friends, Since(stats, id))));
  }

  /** The stat upsert as the job writes it: the update's new total reads the
      stat row fetched with the user before the upsert is issued, so a user
      without a stat row raises an error (absent here) and nothing is
      written, although a create branch is given. */
  function StatUpsertAsWritten(stats: map<string, UserStat>, id: string, weighted: real, now: int)
    : (r: Option<map<string, UserStat>>)
    ensures r.None? <==> id !in stats
    ensures r.Some? ==> r.value.Keys == stats.Keys && r.value[id].lastCheckLevelTime == now
  {
    if id !in stats then None
    else Some(stats[id := UserStat(id, stats[id].totalFriendsMargin + weighted, now)])
  }

  /** One user's step: the stat row is upserted with the new total and the
      current time, and the level is raised when the total's level is
      higher. A user whose processing fails is left as it was. */
  method UpgradeUser(db: Database, id: string, now: int,
                     friendsOf: (string, Scope) -> seq<Friend>,
                     marginsOf: (seq<Friend>, int) -> seq<MarginGroup>,
                     levelOf: real -> int, fails: string -> bool)
    requires id in db.users
    modifies db`users, db`userStats
    ensures fails(id) ==> db.users == old(db.users) && db.userStats == old(db.userStats)
    ensures !fails(id) ==>
      var total := Accrued(old(db.users), old(db.userStats), id, friendsOf, marginsOf);
      var u := old(db.users)[id];
      && db.userStats == old(db.userStats)[id := UserStat(id, total, now)]
      && db.users == old(db.users)[id := u.(level := NextLevel(u.level, levelOf(total)))]
  {
    if fails(id) {
      return;
    }
    var user := db.users[id];
    var friends := friendsOf(id, ScopeOf(user.isPartner));
    var since := if id in db.userStats then db.userStats[id].lastCheckLevelTime else 0;
    var totalMargin := WeightedMargin(friends, MarginMap(marginsOf(friends, since)));
    // the stat table is keyed by userId, so the row found for `id` is `id`'s
    var stat: UserStat;
    if id in db.userStats {
      stat := UserStat(id, db.userStats[id].totalFriendsMargin + totalMargin, now);
    } else {
      stat := UserStat(id, totalMargin, now);
    }
    assert stat.totalFriendsMargin == Accrued(db.users, db.userStats, id, friendsOf, marginsOf);
    db.userStats := db.userStats[id := stat];
    var level := levelOf(stat.totalFriendsMargin);
    if level > user.level {
      db.users := db.users[id := user.(level := level)];
    }
  }

  /** The user collection lists every id once. */
  predicate DistinctIds(ids: seq<string>)
  {
    forall i, j :: 0 <= i < j < |ids| ==> ids[i] != ids[j]
  }

  predicate Increasing(s: seq<nat>)
  {
    forall i, j :: 0 <= i < j < |s| ==> s[i] < s[j]
  }

  /** Position `i` of the collection holds an eligible user. */
  predicate EligibleAt(users: map<string, User>, order: seq<string>, i: int)
  {
    0 <= i < |order| && order[i] in users && Eligible(users[order[i]])
  }

  /** The positions of the eligible users in the collection, in order. */
  function EligibleIdx(users: map<string, User>, order: seq<string>): (r: seq<nat>)
    ensures |r| <= |order|
    ensures forall j :: 0 <= j < |r| ==> EligibleAt(users, order, r[j])
  {
    if order == [] then []
    else
      var n := |order| - 1;
      var p := EligibleIdx(users, order[..n]);
      assert forall j :: 0 <= j < |p| ==> EligibleAt(users, order[..n], p[j]) && EligibleAt(users, order, p[j]);
      p + (if order[n] in users && Eligible(users[order[n]]) then [n] else [])
  }

  /** The eligible positions are listed in increasing order, and every
      eligible position is listed. */
  lemma {:induction false} EligibleIdxFacts(users: map<string, User>, order: seq<string>)
    ensures Increasing(EligibleIdx(users, order))
    ensures forall i :: EligibleAt(users, order, i) ==> i in EligibleIdx(users, order)
  {
    if order != [] {
      var n := |order| - 1;
      EligibleIdxFacts(users, order[..n]);
      var p := EligibleIdx(users, order[..n]);
      assert forall j :: 0 <= j < |p| ==> EligibleAt(users, order[..n], p[j]) && p[j] < n;
      assert forall i :: EligibleAt(users, order, i) && i < n ==> EligibleAt(users, order[..n], i);
    }
  }

  /** The eligible users in collection order, as the paged query sees them. */
  function EligibleIds(users: map<string, User>, order: seq<string>): (ids: seq<string>)
    ensures |ids| == |EligibleIdx(users, order)| <= |order|
    ensures forall j :: 0 <= j < |ids| ==> ids[j] == order[EligibleIdx(users, order)[j]]
    ensures forall i :: 0 <= i < |ids| ==> ids[i] in users && Eligible(users[ids[i]])
    ensures forall i :: 0 <= i < |order| && order[i] in users && Eligible(users[order[i]]) ==> order[i] in ids
    ensures forall id :: id in ids ==> id in order
  {
    var idx := EligibleIdx(users, order);
    var ids := seq(|idx|, j requires 0 <= j < |idx| => order[idx[j]]);
    EligibleIdxFacts(users, order);
    assert forall i :: 0 <= i < |order| && order[i] in users && Eligible(users[order[i]]) ==> order[i] in ids by {
      forall i | 0 <= i < |order| && order[i] in users && Eligible(users[order[i]])
        ensures order[i] in ids
      {
        assert EligibleAt(users, order, i);
        var j :| 0 <= j < |idx| && idx[j] == i;
        assert ids[j] == order[i];
      }
    }
    ids
  }

  /** An increasing sequence whose elements all occur in another increasing
      sequence is no longer than it and lies pointwise at or above it. */
  lemma IncreasingSubset(a: seq<nat>, b: seq<nat>)
    requires Increasing(a) && Increasing(b)
    requires forall j :: 0 <= j < |a| ==> a[j] in b
    ensures |a| <= |b|
    ensures forall j :: 0 <= j < |a| ==> j < |b| && a[j] >= b[j]
  {
    forall j | 0 <= j < |a|
      ensures j < |b| && a[j] >= b[j]
    {
      IncreasingSubsetAt(a, b, j);
    }
    if |a| > 0 {
      IncreasingSubsetAt(a, b, |a| - 1);
    }
  }

  lemma {:induction false} IncreasingSubsetAt(a: seq<nat>, b: seq<nat>, j: nat)
    requires Increasing(a) && Increasing(b)
    requires forall j :: 0 <= j < |a| ==> a[j] in b
    requires j < |a|
    ensures j < |b| && a[j] >= b[j]
  {
    assert a[j] in b;
    var m :| 0 <= m < |b| && b[m] == a[j];
    if j > 0 {
      IncreasingSubsetAt(a, b, j - 1);
      assert a[j - 1] < a[j];
    }
    assert m >= j;
    if m > j {
      assert b[j] < b[m];
    }
  }

  /** A table in which eligibility was only lost lists a subset of the
      positions, each no earlier than the same rank before. */
  lemma EligibleIdxShrinks(users: map<string, User>, users': map<string, User>, order: seq<string>)
    requires forall i :: EligibleAt(users', order, i) ==> EligibleAt(users, order, i)
    ensures |EligibleIdx(users', order)| <= |EligibleIdx(users, order)|
    ensures forall j :: 0 <= j < |EligibleIdx(users', order)| ==>
      EligibleIdx(users', order)[j] >= EligibleIdx(users, order)[j]
  {
    var a := EligibleIdx(users', order);
    var b := EligibleIdx(users, order);
    EligibleIdxFacts(users, order);
    EligibleIdxFacts(users', order);
    assert forall j :: 0 <= j < |a| ==> EligibleAt(users', order, a[j]);
    IncreasingSubset(a, b);
  }

  /** Two user tables that agree on who is eligible list the same positions. */
  lemma SameEligibleIdx(users: map<string, User>, users': map<string, User>, order: seq<string>)
    requires forall i :: EligibleAt(users, order, i) <==> EligibleAt(users', order, i)
    ensures EligibleIdx(users, order) == EligibleIdx(users', order)
  {
    EligibleIdxShrinks(users, users', order);
    EligibleIdxShrinks(users', users, order);
  }

  /** `skip`/`take` with a page of 100. */
  function Page(ids: seq<string>, skip: nat): (p: seq<string>)
    ensures |p| <= PageSize
    ensures skip >= |ids| ==> p == []
    ensures skip < |ids| ==> |p| == if |ids| - skip < PageSize then |ids| - skip else PageSize
    ensures forall i :: 0 <= i < |p| ==> p[i] == ids[skip + i]
  {
    if skip >= |ids| then [] else if |ids| - skip < PageSize then ids[skip..] else ids[skip..skip + PageSize]
  }

  /** What the job may have done so far: the same users, each with only its
      level changed and never lowered; every stat row kept or, for a user
      eligible when the job started, refreshed at `now`. */
  predicate Progressed(users0: map<string, User>, stats0: map<string, UserStat>,
                       users: map<string, User>, stats: map<string, UserStat>, now: int)
  {
    && users.Keys == users0.Keys
    && (forall k :: k in users ==> users[k] == users0[k].(level := users[k].level) && users[k].level >= users0[k].level)
    && stats0.Keys <= stats.Keys
    && (forall k :: k in stats ==>
          (k in stats0 && stats[k] == stats0[k])
          || (k in users0 && Eligible(users0[k]) && stats[k].userId == k && stats[k].lastCheckLevelTime == now))
  }

  /** What the job leaves for user `k`: a processed user without an error
      has the stat row of `UpgradeUser` computed from the state the job
      started with, and the level raised from it; any other user, and its
      stat row, is as it was. */
  predicate UserOutcome(users0: map<string, User>, stats0: map<string, UserStat>,
                        users: map<string, User>, stats: map<string, UserStat>, k: string, processed: bool,
                        now: int, friendsOf: (string, Scope) -> seq<Friend>,
                        marginsOf: (seq<Friend>, int) -> seq<MarginGroup>,
                        levelOf: real -> int, fails: string -> bool)
  {
    if processed && !fails(k) && k in users0 then
      var total := Accrued(users0, stats0, k, friendsOf, marginsOf);
      && k in users && users[k] == users0[k].(level := NextLevel(users0[k].level, levelOf(total)))
      && k in stats && stats[k] == UserStat(k, total, now)
    else
      && (k in users <==> k in users0) && (k in users0 ==> users[k] == users0[k])
      && (k in stats <==> k in stats0) && (k in stats0 ==> stats[k] == stats0[k])
  }

  /** `UpgradeUser` on a user not processed before extends the outcome to
      that user: the user is still as the job found it, so its total is the
      one computed from the starting state. */
  lemma OutcomeStep(users0: map<string, User>, stats0: map<string, UserStat>,
                    users: map<string, User>, stats: map<string, UserStat>,
                    users': map<string, User>, stats': map<string, UserStat>,
                    done: seq<string>, id: string, now: int,
                    friendsOf: (string, Scope) -> seq<Friend>,
                    marginsOf: (seq<Friend>, int) -> seq<MarginGroup>,
                    levelOf: real -> int, fails: string -> bool)
    requires forall k :: UserOutcome(users0, stats0, users, stats, k, k in done, now, friendsOf, marginsOf, levelOf, fails)
    requires id !in done && id in users
    requires fails(id) ==> users' == users && stats' == stats
    requires !fails(id) ==>
      var total := Accrued(users, stats, id, friendsOf, marginsOf);
      && stats' == stats[id := UserStat(id, total, now)]
      && users' == users[id := users[id].(level := NextLevel(users[id].level, levelOf(total)))]
    ensures forall k :: UserOutcome(users0, stats0, users', stats', k, k in done + [id], now, friendsOf, marginsOf, levelOf, fails)
  {
    assert UserOutcome(users0, stats0, users, stats, id, id in done, now, friendsOf, marginsOf, levelOf, fails);
    forall k
      ensures UserOutcome(users0, stats0, users', stats', k, k in done + [id], now, friendsOf, marginsOf, levelOf, fails)
    {
      assert UserOutcome(users0, stats0, users, stats, k, k in done, now, friendsOf, marginsOf, levelOf, fails);
      if k == id && !fails(id) {
        assert PriorMargin(stats, id) == PriorMargin(stats0, id);
        assert Since(stats, id) == Since(stats0, id);
        assert Accrued(users, stats, id, friendsOf, marginsOf) == Accrued(users0, stats0, id, friendsOf, marginsOf);
      }
    }
  }

  /** Two runs in a row, the second on users the first did not process, make
      one run over both. */
  lemma ComposeOutcomes(users0: map<string, User>, stats0: map<string, UserStat>,
                        users1: map<string, User>, stats1: map<string, UserStat>,
                        users2: map<string, User>, stats2: map<string, UserStat>,
                        done: seq<string>, page: seq<string>, now: int,
                        friendsOf: (string, Scope) -> seq<Friend>,
                        marginsOf: (seq<Friend>, int) -> seq<MarginGroup>,
                        levelOf: real -> int, fails: string -> bool)
    requires forall k :: UserOutcome(users0, stats0, users1, stats1, k, k in done, now, friendsOf, marginsOf, levelOf, fails)
    requires forall k :: UserOutcome(users1, stats1, users2, stats2, k, k in page, now, friendsOf, marginsOf, levelOf, fails)
    requires forall k :: k in page ==> k !in done
    ensures forall k :: UserOutcome(users0, stats0, users2, stats2, k, k in done + page, now, friendsOf, marginsOf, levelOf, fails)
  {
    forall k
      ensures UserOutcome(users0, stats0, users2, stats2, k, k in done + page, now, friendsOf, marginsOf, levelOf, fails)
    {
      assert UserOutcome(users0, stats0, users1, stats1, k, k in done, now, friendsOf, marginsOf, levelOf, fails);
      assert UserOutcome(users1, stats1, users2, stats2, k, k in page, now, friendsOf, marginsOf, levelOf, fails);
      if k in page && !fails(k) && k in users1 {
        assert PriorMargin(stats1, k) == PriorMargin(stats0, k);
        assert Since(stats1, k) == Since(stats0, k);
        assert Accrued(users1, stats1, k, friendsOf, marginsOf) == Accrued(users0, stats0, k, friendsOf, marginsOf);
      }
    }
  }

  /** The outcome of a run over initially eligible users is progress. */
  lemma OutcomesProgress(users0: map<string, User>, stats0: map<string, UserStat>,
                         users: map<string, User>, stats: map<string, UserStat>,
                         done: seq<string>, now: int,
                         friendsOf: (string, Scope) -> seq<Friend>,
                         marginsOf: (seq<Friend>, int) -> seq<MarginGroup>,
                         levelOf: real -> int, fails: string -> bool)
    requires forall k :: UserOutcome(users0, stats0, users, stats, k, k in done, now, friendsOf, marginsOf, levelOf, fails)
    requires forall i :: 0 <= i < |done| ==> done[i] in users0 && Eligible(users0[done[i]])
    ensures Progressed(users0, stats0, users, stats, now)
  {
    forall k
      ensures (k in users <==> k in users0) && (k in stats0 ==> k in stats)
      ensures k in users ==> users[k] == users0[k].(level := users[k].level) && users[k].level >= users0[k].level
      ensures k in stats ==>
          (k in stats0 && stats[k] == stats0[k])
          || (k in users0 && Eligible(users0[k]) && stats[k].userId == k && stats[k].lastCheckLevelTime == now)
    {
      assert UserOutcome(users0, stats0, users, stats, k, k in done, now, friendsOf, marginsOf, levelOf, fails);
    }
  }

  /** A processed user that did not reach the top level. */
  predicate NoneReachedMax(users: map<string, User>, done: seq<string>)
  {
    forall id :: id in done ==> id in users && users[id].level < MaxLevel
  }

  /** The processed users, `done`, sit at the increasing positions `pos` of
      the collection. */
  predicate Tracked(order: seq<string>, done: seq<string>, pos: seq<nat>)
  {
    && |pos| == |done|
    && (forall i :: 0 <= i < |pos| ==> pos[i] < |order| && order[pos[i]] == done[i])
    && Increasing(pos)
  }

  /** Users at increasing positions of a collection listing each id once are
      distinct. */
  lemma TrackedDistinct(order: seq<string>, done: seq<string>, pos: seq<nat>)
    requires DistinctIds(order) && Tracked(order, done, pos)
    ensures DistinctIds(done)
  {
    forall i, j | 0 <= i < j < |done|
      ensures done[i] != done[j]
    {
      assert pos[i] < pos[j];
    }
  }

  /** The positions a page adds to those already processed. */
  ghost function Advance(pos: seq<nat>, c: seq<nat>, skip: nat, n: nat): seq<nat>
  {
    pos + (if n == 0 || skip + n > |c| then [] else c[skip..skip + n])
  }

  /** The next read, at rank `skip` of the eligible positions `c`, starts
      past every processed position. */
  predicate Frontier(users: map<string, User>, order: seq<string>, pos: seq<nat>, skip: nat)
  {
    var c := EligibleIdx(users, order);
    skip < |c| ==> forall i :: 0 <= i < |pos| ==> pos[i] < c[skip]
  }

  /** The invariant of the job's page loop, `skip` rows in: the processed
      users are tracked at increasing positions, were eligible when the job
      started and have their outcome; the next read starts past every
      processed position; and while nobody processed has reached the top
      level, nobody has left the eligible list and the processed positions
      are the first `skip` of it. */
  ghost predicate CronInv(users0: map<string, User>, stats0: map<string, UserStat>,
                          users: map<string, User>, stats: map<string, UserStat>,
                          order: seq<string>, skip: nat, done: seq<string>, pos: seq<nat>, now: int,
                          friendsOf: (string, Scope) -> seq<Friend>,
                          marginsOf: (seq<Friend>, int) -> seq<MarginGroup>,
                          levelOf: real -> int, fails: string -> bool)
  {
    var idx0 := EligibleIdx(users0, order);
    var c := EligibleIdx(users, order);
    && Tracked(order, done, pos)
    && (forall i :: 0 <= i < |done| ==> done[i] in users0 && Eligible(users0[done[i]]))
    && (forall k :: UserOutcome(users0, stats0, users, stats, k, k in done, now, friendsOf, marginsOf, levelOf, fails))
    && Frontier(users, order, pos, skip)
    && (NoneReachedMax(users, done) ==> c == idx0 && pos == idx0[..if skip < |idx0| then skip else |idx0|])
  }

  /** The users a page read hands the loop sit at the next positions of the
      current eligible list. */
  lemma PageSlice(users: map<string, User>, order: seq<string>, skip: nat, page: seq<string>)
    requires page == Page(EligibleIds(users, order), skip)
    ensures var c := EligibleIdx(users, order);
      && (page != [] ==> skip + |page| <= |c|)
      && (skip < |c| ==> |page| == if |c| - skip < PageSize then |c| - skip else PageSize)
      && (forall j :: 0 <= j < |page| ==> page[j] == order[c[skip + j]])
      && (forall j :: 0 <= j < |page| ==> page[j] in users && Eligible(users[page[j]]))
  {
    var ids := EligibleIds(users, order);
    forall j | 0 <= j < |page|
      ensures page[j] == ids[skip + j] && page[j] in users && Eligible(users[page[j]])
    {
    }
  }

  /** The users of a page are distinct and none was processed before. */
  lemma PageFresh(order: seq<string>, c: seq<nat>, skip: nat, page: seq<string>, done: seq<string>, pos: seq<nat>)
    requires DistinctIds(order) && Tracked(order, done, pos) && Increasing(c)
    requires forall j :: 0 <= j < |c| ==> c[j] < |order|
    requires page != [] ==> skip + |page| <= |c|
    requires forall j :: 0 <= j < |page| ==> page[j] == order[c[skip + j]]
    requires skip < |c| ==> forall i :: 0 <= i < |pos| ==> pos[i] < c[skip]
    ensures DistinctIds(page)
    ensures forall k :: k in page ==> k !in done
  {
    forall i, j | 0 <= i < j < |page|
      ensures page[i] != page[j]
    {
      assert c[skip + i] < c[skip + j];
    }
    forall k | k in page
      ensures k !in done
    {
      var j :| 0 <= j < |page| && page[j] == k;
      forall i | 0 <= i < |done|
        ensures done[i] != k
      {
        assert c[skip] <= c[skip + j] by {
          if j > 0 {
            assert c[skip] < c[skip + j];
          }
        }
      }
    }
  }

  /** A page read inside the loop can be handed to the user loop. */
  lemma PageReady(users0: map<string, User>, stats0: map<string, UserStat>,
                  users: map<string, User>, stats: map<string, UserStat>,
                  order: seq<string>, skip: nat, page: seq<string>, done: seq<string>, pos: seq<nat>, now: int,
                  friendsOf: (string, Scope) -> seq<Friend>,
                  marginsOf: (seq<Friend>, int) -> seq<MarginGroup>,
                  levelOf: real -> int, fails: string -> bool)
    requires DistinctIds(order)
    requires CronInv(users0, stats0, users, stats, order, skip, done, pos, now, friendsOf, marginsOf, levelOf, fails)
    requires page == Page(EligibleIds(users, order), skip)
    ensures forall j :: 0 <= j < |page| ==> page[j] in users
    ensures DistinctIds(page)
  {
    PageSlice(users, order, skip, page);
    var c := EligibleIdx(users, order);
    EligibleIdxFacts(users, order);
    PageFresh(order, c, skip, page, done, pos);
  }

  /** Eligibility is only ever lost: levels are only raised and nothing else
      of a user changes. */
  lemma EligibilityOnlyLost(users1: map<string, User>, stats1: map<string, UserStat>,
                            users2: map<string, User>, stats2: map<string, UserStat>,
                            page: seq<string>, order: seq<string>, now: int,
                            friendsOf: (string, Scope) -> seq<Friend>,
                            marginsOf: (seq<Friend>, int) -> seq<MarginGroup>,
                            levelOf: real -> int, fails: string -> bool)
    requires forall k :: UserOutcome(users1, stats1, users2, stats2, k, k in page, now, friendsOf, marginsOf, levelOf, fails)
    ensures forall i :: EligibleAt(users2, order, i) ==> EligibleAt(users1, order, i)
  {
    forall i | EligibleAt(users2, order, i)
      ensures EligibleAt(users1, order, i)
    {
      assert UserOutcome(users1, stats1, users2, stats2, order[i], order[i] in page,
                         now, friendsOf, marginsOf, levelOf, fails);
    }
  }

  /** Appending a page's positions keeps the processed users tracked. */
  lemma TrackedStep(order: seq<string>, done: seq<string>, pos: seq<nat>, c: seq<nat>, skip: nat, page: seq<string>)
    requires Tracked(order, done, pos) && Increasing(c)
    requires forall j :: 0 <= j < |c| ==> c[j] < |order|
    requires page != [] ==> skip + |page| <= |c|
    requires forall j :: 0 <= j < |page| ==> page[j] == order[c[skip + j]]
    requires skip < |c| ==> forall i :: 0 <= i < |pos| ==> pos[i] < c[skip]
    ensures Tracked(order, done + page, Advance(pos, c, skip, |page|))
  {
    if page != [] {
      var pos' := Advance(pos, c, skip, |page|);
      assert pos' == pos + c[skip..skip + |page|];
      TrackedAppendAt(order, done, pos, c, skip, page);
      TrackedAppendIncreasing(pos, c, skip, |page|);
    }
  }

  lemma TrackedAppendAt(order: seq<string>, done: seq<string>, pos: seq<nat>, c: seq<nat>, skip: nat, page: seq<string>)
    requires Tracked(order, done, pos)
    requires forall j :: 0 <= j < |c| ==> c[j] < |order|
    requires page != [] && skip + |page| <= |c|
    requires forall j :: 0 <= j < |page| ==> page[j] == order[c[skip + j]]
    ensures var pos' := pos + c[skip..skip + |page|];
      forall i :: 0 <= i < |pos'| ==> pos'[i] < |order| && order[pos'[i]] == (done + page)[i]
  {
    var pos' := pos + c[skip..skip + |page|];
    forall i | 0 <= i < |pos'|
      ensures pos'[i] < |order| && order[pos'[i]] == (done + page)[i]
    {
      if i >= |pos| {
        assert pos'[i] == c[skip + i - |pos|];
        assert (done + page)[i] == page[i - |pos|];
      }
    }
  }

  lemma TrackedAppendIncreasing(pos: seq<nat>, c: seq<nat>, skip: nat, n: nat)
    requires Increasing(pos) && Increasing(c)
    requires 0 < n && skip + n <= |c|
    requires forall i :: 0 <= i < |pos| ==> pos[i] < c[skip]
    ensures Increasing(pos + c[skip..skip + n])
  {
    var pos' := pos + c[skip..skip + n];
    forall i, j | 0 <= i < j < |pos'|
      ensures pos'[i] < pos'[j]
    {
      if i < |pos| && j >= |pos| {
        assert c[skip] <= c[skip + j - |pos|] by {
          if j > |pos| {
            assert c[skip] < c[skip + j - |pos|];
          }
        }
      } else if i >= |pos| {
        assert pos'[i] == c[skip + i - |pos|] && pos'[j] == c[skip + j - |pos|];
      }
    }
  }

  /** After a page the next read starts past every processed position. */
  lemma FrontierStep(c: seq<nat>, c': seq<nat>, skip: nat, pos: seq<nat>, n: nat)
    requires Increasing(c)
    requires |c'| <= |c| && forall j :: 0 <= j < |c'| ==> c'[j] >= c[j]
    requires n > 0 ==> skip + n <= |c|
    requires skip < |c| ==> n == if |c| - skip < PageSize then |c| - skip else PageSize
    requires skip < |c| ==> forall i :: 0 <= i < |pos| ==> pos[i] < c[skip]
    ensures var pos' := Advance(pos, c, skip, n);
      skip + PageSize < |c'| ==> forall i :: 0 <= i < |pos'| ==> pos'[i] < c'[skip + PageSize]
  {
    var pos' := Advance(pos, c, skip, n);
    if skip + PageSize < |c'| {
      assert n == PageSize;
      assert pos' == pos + c[skip..skip + PageSize];
      forall i | 0 <= i < |pos'|
        ensures pos'[i] < c'[skip + PageSize]
      {
        if i < |pos| {
          assert c[skip] < c[skip + PageSize];
        } else {
          assert pos'[i] == c[skip + i - |pos|];
          assert c[skip + i - |pos|] < c[skip + PageSize];
        }
      }
    }
  }

  /** The processed users still below the top level were already so before
      the page, and the page's users stay eligible. */
  lemma NoneReachedBefore(users1: map<string, User>, stats1: map<string, UserStat>,
                          users2: map<string, User>, stats2: map<string, UserStat>,
                          page: seq<string>, done: seq<string>, now: int,
                          friendsOf: (string, Scope) -> seq<Friend>,
                          marginsOf: (seq<Friend>, int) -> seq<MarginGroup>,
                          levelOf: real -> int, fails: string -> bool)
    requires forall k :: UserOutcome(users1, stats1, users2, stats2, k, k in page, now, friendsOf, marginsOf, levelOf, fails)
    requires forall k :: k in page ==> k !in done
    requires NoneReachedMax(users2, done + page)
    ensures NoneReachedMax(users1, done)
    ensures forall id :: id in page ==> id in users2 && users2[id].level < MaxLevel
  {
    forall id | id in done
      ensures id in users1 && users1[id].level < MaxLevel
    {
      assert UserOutcome(users1, stats1, users2, stats2, id, id in page, now, friendsOf, marginsOf, levelOf, fails);
    }
  }

  /** When nobody processed has reached the top level, no user has left the
      eligible list, so the pages are consecutive slices of the list the job
      started with. */
  lemma CompleteStep(idx0: seq<nat>, users1: map<string, User>, stats1: map<string, UserStat>,
                     users2: map<string, User>, stats2: map<string, UserStat>,
                     order: seq<string>, skip: nat, page: seq<string>, pos: seq<nat>, now: int,
                     friendsOf: (string, Scope) -> seq<Friend>,
                     marginsOf: (seq<Friend>, int) -> seq<MarginGroup>,
                     levelOf: real -> int, fails: string -> bool)
    requires skip < |idx0| && EligibleIdx(users1, order) == idx0 && pos == idx0[..skip]
    requires forall k :: UserOutcome(users1, stats1, users2, stats2, k, k in page, now, friendsOf, marginsOf, levelOf, fails)
    requires page != [] ==> skip + |page| <= |idx0|
    requires |page| == if |idx0| - skip < PageSize then |idx0| - skip else PageSize
    requires forall j :: 0 <= j < |page| ==> page[j] in users1 && Eligible(users1[page[j]])
    requires forall id :: id in page ==> id in users2 && users2[id].level < MaxLevel
    ensures EligibleIdx(users2, order) == idx0
    ensures Advance(pos, idx0, skip, |page|) == idx0[..if skip + PageSize < |idx0| then skip + PageSize else |idx0|]
  {
    forall i
      ensures EligibleAt(users1, order, i) <==> EligibleAt(users2, order, i)
    {
      if 0 <= i < |order| {
        var k := order[i];
        assert UserOutcome(users1, stats1, users2, stats2, k, k in page, now, friendsOf, marginsOf, levelOf, fails);
        if k in page {
          var j :| 0 <= j < |page| && page[j] == k;
          assert Eligible(users1[k]);
        }
      }
    }
    SameEligibleIdx(users1, users2, order);
    assert idx0[..skip] + idx0[skip..skip + |page|] == idx0[..skip + |page|];
  }

  /** The processed users and the page's users were all eligible when the
      job started. */
  lemma EligibleAtStart(users0: map<string, User>, stats0: map<string, UserStat>,
                        users1: map<string, User>, stats1: map<string, UserStat>,
                        done: seq<string>, page: seq<string>, now: int,
                        friendsOf: (string, Scope) -> seq<Friend>,
                        marginsOf: (seq<Friend>, int) -> seq<MarginGroup>,
                        levelOf: real -> int, fails: string -> bool)
    requires forall i :: 0 <= i < |done| ==> done[i] in users0 && Eligible(users0[done[i]])
    requires forall k :: UserOutcome(users0, stats0, users1, stats1, k, k in done, now, friendsOf, marginsOf, levelOf, fails)
    requires forall j :: 0 <= j < |page| ==> page[j] in users1 && Eligible(users1[page[j]])
    requires forall k :: k in page ==> k !in done
    ensures forall i :: 0 <= i < |done + page| ==> (done + page)[i] in users0 && Eligible(users0[(done + page)[i]])
  {
    forall i | 0 <= i < |done + page|
      ensures (done + page)[i] in users0 && Eligible(users0[(done + page)[i]])
    {
      if i >= |done| {
        var k := page[i - |done|];
        assert UserOutcome(users0, stats0, users1, stats1, k, k in done, now, friendsOf, marginsOf, levelOf, fails);
      }
    }
  }

  /** After a page the next read still starts past every processed
      position. */
  lemma FrontierAfterPage(users1: map<string, User>, stats1: map<string, UserStat>,
                          users2: map<string, User>, stats2: map<string, UserStat>,
                          order: seq<string>, skip: nat, page: seq<string>, pos: seq<nat>, now: int,
                          friendsOf: (string, Scope) -> seq<Friend>,
                          marginsOf: (seq<Friend>, int) -> seq<MarginGroup>,
                          levelOf: real -> int, fails: string -> bool)
    requires forall k :: UserOutcome(users1, stats1, users2, stats2, k, k in page, now, friendsOf, marginsOf, levelOf, fails)
    requires page == Page(EligibleIds(users1, order), skip)
    requires var c := EligibleIdx(users1, order); skip < |c| ==> forall i :: 0 <= i < |pos| ==> pos[i] < c[skip]
    ensures var pos' := Advance(pos, EligibleIdx(users1, order), skip, |page|);
      var c' := EligibleIdx(users2, order);
      skip + PageSize < |c'| ==> forall i :: 0 <= i < |pos'| ==> pos'[i] < c'[skip + PageSize]
  {
    PageSlice(users1, order, skip, page);
    EligibilityOnlyLost(users1, stats1, users2, stats2, page, order, now, friendsOf, marginsOf, levelOf, fails);
    EligibleIdxShrinks(users1, users2, order);
    EligibleIdxFacts(users1, order);
    FrontierStep(EligibleIdx(users1, order), EligibleIdx(users2, order), skip, pos, |page|);
  }

  /** While nobody processed has reached the top level, the processed
      positions stay the first ones of the list the job started with. */
  lemma CompleteAfterPage(idx0: seq<nat>, users1: map<string, User>, stats1: map<string, UserStat>,
                          users2: map<string, User>, stats2: map<string, UserStat>,
                          order: seq<string>, skip: nat, page: seq<string>, done: seq<string>, pos: seq<nat>, now: int,
                          friendsOf: (string, Scope) -> seq<Friend>,
                          marginsOf: (seq<Friend>, int) -> seq<MarginGroup>,
                          levelOf: real -> int, fails: string -> bool)
    requires skip < |idx0|
    requires NoneReachedMax(users1, done) ==> EligibleIdx(users1, order) == idx0 && pos == idx0[..skip]
    requires forall k :: UserOutcome(users1, stats1, users2, stats2, k, k in page, now, friendsOf, marginsOf, levelOf, fails)
    requires forall k :: k in page ==> k !in done
    requires page == Page(EligibleIds(users1, order), skip)
    ensures var pos' := Advance(pos, EligibleIdx(users1, order), skip, |page|);
      var s' := skip + PageSize;
      NoneReachedMax(users2, done + page) ==>
        EligibleIdx(users2, order) == idx0 && pos' == idx0[..if s' < |idx0| then s' else |idx0|]
  {
    if NoneReachedMax(users2, done + page) {
      NoneReachedBefore(users1, stats1, users2, stats2, page, done, now, friendsOf, marginsOf, levelOf, fails);
      PageSlice(users1, order, skip, page);
      CompleteStep(idx0, users1, stats1, users2, stats2, order, skip, page, pos, now,
                   friendsOf, marginsOf, levelOf, fails);
    }
  }

  /** A page keeps the invariant of the job's loop. */
  lemma PageAdvances(users0: map<string, User>, stats0: map<string, UserStat>,
                     users1: map<string, User>, stats1: map<string, UserStat>,
                     users2: map<string, User>, stats2: map<string, UserStat>,
                     order: seq<string>, skip: nat, page: seq<string>, done: seq<string>, pos: seq<nat>, now: int,
                     friendsOf: (string, Scope) -> seq<Friend>,
                     marginsOf: (seq<Friend>, int) -> seq<MarginGroup>,
                     levelOf: real -> int, fails: string -> bool)
    requires DistinctIds(order) && skip < |EligibleIdx(users0, order)|
    requires CronInv(users0, stats0, users1, stats1, order, skip, done, pos, now, friendsOf, marginsOf, levelOf, fails)
    requires page == Page(EligibleIds(users1, order), skip)
    requires forall k :: UserOutcome(users1, stats1, users2, stats2, k, k in page, now, friendsOf, marginsOf, levelOf, fails)
    ensures CronInv(users0, stats0, users2, stats2, order, skip + PageSize, done + page,
                    Advance(pos, EligibleIdx(users1, order), skip, |page|), now, friendsOf, marginsOf, levelOf, fails)
  {
    var c := EligibleIdx(users1, order);
    PageSlice(users1, order, skip, page);
    EligibleIdxFacts(users1, order);
    PageFresh(order, c, skip, page, done, pos);
    ComposeOutcomes(users0, stats0, users1, stats1, users2, stats2, done, page, now, friendsOf, marginsOf, levelOf, fails);
    TrackedStep(order, done, pos, c, skip, page);
    EligibleAtStart(users0, stats0, users1, stats1, done, page, now, friendsOf, marginsOf, levelOf, fails);
    FrontierAfterPage(users1, stats1, users2, stats2, order, skip, page, pos, now, friendsOf, marginsOf, levelOf, fails);
    CompleteAfterPage(EligibleIdx(users0, order), users1, stats1, users2, stats2, order, skip, page, done, pos, now,
                      friendsOf, marginsOf, levelOf, fails);
  }

  /** What the invariant gives once every page is read. */
  lemma CronDone(users0: map<string, User>, stats0: map<string, UserStat>,
                 users: map<string, User>, stats: map<string, UserStat>,
                 order: seq<string>, skip: nat, done: seq<string>, pos: seq<nat>, now: int,
                 friendsOf: (string, Scope) -> seq<Friend>,
                 marginsOf: (seq<Friend>, int) -> seq<MarginGroup>,
                 levelOf: real -> int, fails: string -> bool)
    requires DistinctIds(order) && skip >= |EligibleIdx(users0, order)|
    requires CronInv(users0, stats0, users, stats, order, skip, done, pos, now, friendsOf, marginsOf, levelOf, fails)
    ensures Progressed(users0, stats0, users, stats, now)
    ensures DistinctIds(done)
    ensures forall i :: 0 <= i < |done| ==> done[i] in users0 && Eligible(users0[done[i]])
    ensures forall k :: UserOutcome(users0, stats0, users, stats, k, k in done, now, friendsOf, marginsOf, levelOf, fails)
    ensures NoneReachedMax(users, done) ==> done == EligibleIds(users0, order)
  {
    OutcomesProgress(users0, stats0, users, stats, done, now, friendsOf, marginsOf, levelOf, fails);
    TrackedDistinct(order, done, pos);
    if NoneReachedMax(users, done) {
      var idx0 := EligibleIdx(users0, order);
      var e := EligibleIds(users0, order);
      assert pos == idx0;
      forall i | 0 <= i < |done|
        ensures done[i] == e[i]
      {
        assert done[i] == order[pos[i]];
      }
    }
  }

  /** One step of the user loop: the stat upsert and the level raise for one
      user, or, when its processing fails, nothing for it. Every listed user
      goes through it once, in order. */
  method UpgradePage(db: Database, page: seq<string>, now: int,
                     friendsOf: (string, Scope) -> seq<Friend>,
                     marginsOf: (seq<Friend>, int) -> seq<MarginGroup>,
                     levelOf: real -> int, fails: string -> bool)
    requires forall j :: 0 <= j < |page| ==> page[j] in db.users
    requires DistinctIds(page)
    modifies db`users, db`userStats
    ensures forall k :: UserOutcome(old(db.users), old(db.userStats), db.users, db.userStats, k, k in page,
                                    now, friendsOf, marginsOf, levelOf, fails)
  {
    ghost var users0 := db.users;
    ghost var stats0 := db.userStats;
    var i := 0;
    while i < |page|
      invariant 0 <= i <= |page|
      invariant forall k :: UserOutcome(users0, stats0, db.users, db.userStats, k, k in page[..i],
                                        now, friendsOf, marginsOf, levelOf, fails)
    {
      var id := page[i];
      assert id !in page[..i];
      assert UserOutcome(users0, stats0, db.users, db.userStats, id, id in page[..i],
                         now, friendsOf, marginsOf, levelOf, fails);
      ghost var users := db.users;
      ghost var stats := db.userStats;
      UpgradeUser(db, id, now, friendsOf, marginsOf, levelOf, fails);
      OutcomeStep(users0, stats0, users, stats, db.users, db.userStats, page[..i], id,
                  now, friendsOf, marginsOf, levelOf, fails);
      assert page[..i + 1] == page[..i] + [id];
      i := i + 1;
    }
    assert page[..|page|] == page;
  }

  /** One page of the job: reads the eligible users at `skip` and processes
      each of them, keeping the loop's invariant. */
  method UpgradeNextPage(db: Database, skip: nat, ghost done: seq<string>, ghost pos: seq<nat>,
                         ghost users0: map<string, User>, ghost stats0: map<string, UserStat>, now: int,
                         friendsOf: (string, Scope) -> seq<Friend>,
                         marginsOf: (seq<Friend>, int) -> seq<MarginGroup>,
                         levelOf: real -> int, fails: string -> bool)
    returns (page: seq<string>, ghost pos': seq<nat>)
    requires DistinctIds(db.userOrder) && skip < |EligibleIdx(users0, db.userOrder)|
    requires CronInv(users0, stats0, db.users, db.userStats, db.userOrder, skip, done, pos,
                     now, friendsOf, marginsOf, levelOf, fails)
    modifies db`users, db`userStats
    ensures page == Page(EligibleIds(old(db.users), db.userOrder), skip)
    ensures CronInv(users0, stats0, db.users, db.userStats, db.userOrder, skip + PageSize, done + page, pos',
                    now, friendsOf, marginsOf, levelOf, fails)
  {
    ghost var users1 := db.users;
    ghost var stats1 := db.userStats;
    page := Page(EligibleIds(db.users, db.userOrder), skip);
    PageReady(users0, stats0, db.users, db.userStats, db.userOrder, skip, page, done, pos,
              now, friendsOf, marginsOf, levelOf, fails);
    UpgradePage(db, page, now, friendsOf, marginsOf, levelOf, fails);
    PageAdvances(users0, stats0, users1, stats1, db.users, db.userStats, db.userOrder, skip, page, done, pos,
                 now, friendsOf, marginsOf, levelOf, fails);
    pos' := Advance(pos, EligibleIdx(users1, db.userOrder), skip, |page|);
  }

  /** The cron job: counts the eligible users once, then reads pages of 100
      at skip 0, 100, 200, ... while skip is below that count, re-running the
      filter for each page, and processes every user of every page. Returns
      the count, the number of pages read and, as a record of the run, the
      users handed to the per-user step, in order. Each of them gets its stat
      row and level from the state the job started with, or is left as it was
      when its processing fails; every other user is untouched. When no
      processed user reaches the top level, the processed users are exactly
      the users eligible at the start. */
  method UpgradeUserLevelCron(db: Database, now: int,
                              friendsOf: (string, Scope) -> seq<Friend>,
                              marginsOf: (seq<Friend>, int) -> seq<MarginGroup>,
                              levelOf: real -> int, fails: string -> bool)
    returns (total: nat, pages: nat, ghost processed: seq<string>)
    requires DistinctIds(db.userOrder)
    modifies db`users, db`userStats
    ensures total == |EligibleIds(old(db.users), db.userOrder)|
    ensures pages * PageSize >= total && (pages == 0 || (pages - 1) * PageSize < total)
    ensures Progressed(old(db.users), old(db.userStats), db.users, db.userStats, now)
    ensures DistinctIds(processed)
    ensures forall i :: 0 <= i < |processed| ==> processed[i] in old(db.users) && Eligible(old(db.users)[processed[i]])
    ensures forall k :: UserOutcome(old(db.users), old(db.userStats), db.users, db.userStats, k, k in processed,
                                    now, friendsOf, marginsOf, levelOf, fails)
    ensures NoneReachedMax(db.users, processed) ==> processed == EligibleIds(old(db.users), db.userOrder)
  {
    ghost var users0 := db.users;
    ghost var stats0 := db.userStats;
    total := |EligibleIds(db.users, db.userOrder)|;
    var skip: nat := 0;
    pages := 0;
    processed := [];
    ghost var pos: seq<nat> := [];
    while skip < total
      invariant skip == pages * PageSize
      invariant pages == 0 || (pages - 1) * PageSize < total
      invariant CronInv(users0, stats0, db.users, db.userStats, db.userOrder, skip, processed, pos,
                        now, friendsOf, marginsOf, levelOf, fails)
    {
      var users;
      users, pos := UpgradeNextPage(db, skip, processed, pos, users0, stats0, now, friendsOf, marginsOf, levelOf, fails);
      processed := processed + users;
      skip := skip + PageSize;
      pages := pages + 1;
    }
    CronDone(users0, stats0, db.users, db.userStats, db.userOrder, skip, processed, pos,
             now, friendsOf, marginsOf, levelOf, fails);
  }
}
