/**
 * The repositories the services use, as one in-memory database: the user
 * table (rows in insertion order), penalty and limit records keyed by login
 * id, the post table keyed by its generated id, and the append-only
 * moderation log. Also the finders the services call and the invariants the
 * services keep.
 */
module Repositories {
  import opened Types

  /** The user columns the repositories search on: findById, findByEmail, findByUsername. */
  datatype Column = ById | ByEmail | ByUsername

  function Field(u: User, c: Column): string {
    match c
    case ById => u.id
    case ByEmail => u.email
    case ByUsername => u.username
  }

  /** Some row has `key` in column `c`. */
  predicate Has(users: seq<User>, c: Column, key: string) {
    exists i :: 0 <= i < |users| && Field(users[i], c) == key
  }

  /** The finder: the position of the first row with `key` in column `c`, if there is one. */
  function Find(users: seq<User>, c: Column, key: string): (r: Option<nat>)
    ensures r.Some? ==> r.value < |users| && Field(users[r.value], c) == key
    ensures r.Some? ==> forall j :: 0 <= j < r.value ==> Field(users[j], c) != key
    ensures r.None? <==> !Has(users, c, key)
  {
    if |users| == 0 then None
    else if Field(users[0], c) == key then Some(0)
    else
      match Find(users[1..], c, key)
      case None => None
      case Some(k) => Some(k + 1)
  }

  /** Two different rows hold `key` in column `c`. */
  predicate Ambiguous(users: seq<User>, c: Column, key: string) {
    exists i, j :: 0 <= i < j < |users| && Field(users[i], c) == key && Field(users[j], c) == key
  }

  /**
   * A single-result finder (an `Optional<UserEntity>` repository query): no
   * row gives nothing, one row gives that row, and two or more rows make the
   * query throw.
   */
  function FindOne(users: seq<User>, c: Column, key: string): (r: Result<Option<nat>>)
    ensures r.Err? <==> Ambiguous(users, c, key)
    ensures r.Err? ==> r.error == NonUniqueResult
    ensures r.Ok? ==> (r.value.None? <==> !Has(users, c, key))
    ensures r.Ok? && r.value.Some? ==>
              r.value.value < |users|
              && forall j :: 0 <= j < |users| && Field(users[j], c) == key ==> j == r.value.value
  {
    match Find(users, c, key)
    case None => Ok(None)
    case Some(i) =>
      match Find(users[i + 1..], c, key)
      case Some(_) => Err(NonUniqueResult)
      case None => Ok(Some(i))
  }

  /** The row of a user known to exist. */
  function UserRow(users: seq<User>, id: string): (u: User)
    requires Has(users, ById, id)
    ensures u.id == id && u in users
  {
    users[Find(users, ById, id).value]
  }

  /** No two rows share a value in column `c`. */
  predicate Unique(users: seq<User>, c: Column) {
    forall i, j :: 0 <= i < j < |users| ==> Field(users[i], c) != Field(users[j], c)
  }

  /** Lemma: in a column without duplicates the single-result finder never throws and agrees with `Find`. */
  lemma UniqueFindOne(users: seq<User>, c: Column, key: string)
    requires Unique(users, c)
    ensures FindOne(users, c, key) == Ok(Find(users, c, key))
  {
  }

  /** Lemma: appending a row whose key is new keeps a column free of duplicates. */
  lemma AppendKeepsUnique(users: seq<User>, c: Column, u: User)
    requires Unique(users, c) && !Has(users, c, Field(u, c))
    ensures Unique(users + [u], c)
  {
  }

  /** How many log rows name `user`. */
  function LogCount(logs: seq<BadwordLog>, user: string): (n: nat)
    ensures n <= |logs|
  {
    if logs == [] then 0
    else (if logs[0].user == user then 1 else 0) + LogCount(logs[1..], user)
  }

  /** Lemma: counting log rows distributes over appending to the log. */
  lemma {:induction false} LogCountAppend(a: seq<BadwordLog>, b: seq<BadwordLog>, user: string)
    ensures LogCount(a + b, user) == LogCount(a, user) + LogCount(b, user)
  {
    if a == [] {
      assert a + b == b;
    } else {
      assert (a + b)[1..] == a[1..] + b;
      LogCountAppend(a[1..], b, user);
    }
  }

  /** A post table is well formed: keys are post ids below the next id, and every author is a user. */
  predicate PostsWellFormed(posts: map<int, Post>, users: seq<User>, nextPostId: int) {
    forall k :: k in posts ==>
      posts[k].postId == k && k < nextPostId && Has(users, ById, posts[k].owner)
  }

  /** Lemma: saving a post under its own id, below the next id and by an existing author, keeps the table well formed. */
  lemma SaveKeepsWellFormed(posts: map<int, Post>, users: seq<User>, nextPostId: int, post: Post)
    requires PostsWellFormed(posts, users, nextPostId)
    requires post.postId < nextPostId && Has(users, ById, post.owner)
    ensures PostsWellFormed(posts[post.postId := post], users, nextPostId)
  {
  }

  /** Every charged penalty is backed by a log row: a user's count never exceeds their log rows. */
  predicate PenaltiesBacked(penalties: map<string, PenaltyRecord>, logs: seq<BadwordLog>) {
    forall u :: u in penalties ==> penalties[u].count <= LogCount(logs, u)
  }

  /** Every user has a penalty record and a limits record (both are created at signup). */
  predicate RecordsComplete(users: seq<User>, penalties: map<string, PenaltyRecord>, limits: map<string, Limits>) {
    forall i :: 0 <= i < |users| ==> users[i].id in penalties && users[i].id in limits
  }

  /** The penalty count shown to the client: the record's count, or 0 when the user has none. */
  function PenaltyShown(penalties: map<string, PenaltyRecord>, user: string): (n: nat)
    ensures user !in penalties ==> n == 0
    ensures user in penalties ==> n == penalties[user].count
  {
    if user in penalties then penalties[user].count else 0
  }

  /** The restriction end shown to the client: the limits record's end date, or null when the user has none. */
  function EndDateShown(limits: map<string, Limits>, user: string): (d: Option<Time>)
    ensures user !in limits ==> d == None
    ensures user in limits ==> d == limits[user].endDate
  {
    if user in limits then limits[user].endDate else None
  }

  /**
   * UserService.applyPenalty, which is not part of this model, read as
   * "charge the user one more penalty": the count goes up by exactly one
   * (a missing record counts as 0) and the record is dated today.
   */
  function Charge(penalties: map<string, PenaltyRecord>, user: string, today: Date): (p: map<string, PenaltyRecord>)
    ensures p.Keys == penalties.Keys + {user}
    ensures p[user].count == PenaltyShown(penalties, user) + 1
    ensures forall u :: u in penalties && u != user ==> p[u] == penalties[u]
  {
    penalties[user := PenaltyRecord(PenaltyShown(penalties, user) + 1, today)]
  }

  /** Lemma: charging a user while logging one row for them keeps every penalty backed by the log. */
  lemma ChargeKeepsBacked(penalties: map<string, PenaltyRecord>, logs: seq<BadwordLog>, entry: BadwordLog, today: Date)
    requires PenaltiesBacked(penalties, logs)
    ensures PenaltiesBacked(Charge(penalties, entry.user, today), logs + [entry])
  {
    var p := Charge(penalties, entry.user, today);
    forall u | u in p
      ensures p[u].count <= LogCount(logs + [entry], u)
    {
      LogCountAppend(logs, [entry], u);
      assert LogCount([entry], u) == (if entry.user == u then 1 else 0) by {
        assert [entry][1..] == [];
      }
    }
  }

  /** Lemma: logging rows without charging anybody keeps every penalty backed by the log. */
  lemma LogKeepsBacked(penalties: map<string, PenaltyRecord>, logs: seq<BadwordLog>, entries: seq<BadwordLog>)
    requires PenaltiesBacked(penalties, logs)
    ensures PenaltiesBacked(penalties, logs + entries)
  {
    forall u | u in penalties
      ensures penalties[u].count <= LogCount(logs + entries, u)
    {
      LogCountAppend(logs, entries, u);
    }
  }

  /** The database behind the repositories. */
  class Database {
    var users: seq<User>
    var penalties: map<string, PenaltyRecord>
    var limits: map<string, Limits>
    var posts: map<int, Post>
    var nextPostId: int
    var badwordLogs: seq<BadwordLog>

    /** The invariant every service operation keeps. */
    ghost predicate Valid()
      reads this
    {
      && Unique(users, ById)
      && Unique(users, ByEmail)
      && PostsWellFormed(posts, users, nextPostId)
      && PenaltiesBacked(penalties, badwordLogs)
    }

    /** An empty database; generated post ids start at 1. */
    constructor ()
      ensures Valid()
      ensures users == [] && penalties == map[] && limits == map[]
      ensures posts == map[] && nextPostId == 1 && badwordLogs == []
    {
      users, penalties, limits := [], map[], map[];
      posts, nextPostId, badwordLogs := map[], 1, [];
    }
  }
}
