/** Per-tenant endpubs: epochs, rotation, the overlap window, and crediting. The
    public key of a tenant's epoch is a parameter. */
module Endpubs {
  import opened Common

  type UserId = string

  datatype User = User(interval: Option<int>, epoch: int, rotatedAt: int)

  datatype Assignment = Assignment(pubkey: string, created: int)

  datatype Slot = Slot(user: UserId, epoch: int)

  /** The two tables and the clock. */
  datatype Book = Book(now: int, users: map<UserId, User>, endpubs: map<Slot, Assignment>)

  type KeyOf = (UserId, int) -> string

  // --------------------------------------------------------------- operations

  /** INSERT OR IGNORE. */
  function Assign(b: Book, key: KeyOf, id: UserId, epoch: int): Book {
    if Slot(id, epoch) in b.endpubs then b
    else b.(endpubs := b.endpubs[Slot(id, epoch) := Assignment(key(id, epoch), b.now)])
  }

  /** A taken id violates the primary key and changes nothing. */
  function AfterCreate(b: Book, key: KeyOf, id: UserId, interval: Option<int>): Book {
    if id in b.users then b else Assign(b.(users := b.users[id := User(interval, 0, b.now)]), key, id, 0)
  }

  /** An unknown user is an error and changes nothing. */
  function AfterRotate(b: Book, key: KeyOf, id: UserId): Book {
    if id !in b.users then b
    else
      var next := b.users[id].epoch + 1;
      Assign(b.(users := b.users[id := b.users[id].(epoch := next, rotatedAt := b.now)]), key, id, next)
  }

  function EffectiveInterval(u: User, fallback: int): int {
    if u.interval.Some? then u.interval.value else fallback
  }

  /** A user's rotation clock has run out. */
  predicate RotationDue(b: Book, id: UserId, fallback: int) {
    && id in b.users
    && EffectiveInterval(b.users[id], fallback) > 0
    && b.now - b.users[id].rotatedAt >= EffectiveInterval(b.users[id], fallback)
  }

  /** The same, told of one user's row: rotated `interval` seconds ago or longer, by
      the user's own interval if there is one; never when that is not positive. */
  predicate ClockRanOut(u: User, now: int, fallback: int) {
    match u.interval
    case Some(own) => own > 0 && u.rotatedAt + own <= now
    case None => fallback > 0 && u.rotatedAt + fallback <= now
  }

  /** `rotate_due` over the listed users, first to last. */
  function AfterRotateDue(b: Book, key: KeyOf, ids: seq<UserId>, fallback: int): Book {
    if ids == [] then b
    else
      var mid := AfterRotateDue(b, key, ids[..|ids| - 1], fallback);
      var id := ids[|ids| - 1];
      if RotationDue(b, id, fallback) then AfterRotate(mid, key, id) else mid
  }

  // ------------------------------------------------------------------ queries

  function Max(a: int, b: int): int {
    if a >= b then a else b
  }

  /** The rows `watched_pubkeys` selects. */
  function Watched(b: Book, overlap: int): set<Slot> {
    set s | s in b.endpubs && s.user in b.users && s.epoch >= b.users[s.user].epoch - Max(overlap, 0)
  }

  /** The rows a received key may be credited to. */
  function Credited(b: Book, pubkey: string): set<Slot> {
    set s | s in b.endpubs && b.endpubs[s].pubkey == pubkey
  }

  // ---------------------------------------------------------------- invariants

  /** Every user's assigned epochs are exactly 0 to the current one, each under its
      own derived key. */
  ghost predicate Complete(b: Book, key: KeyOf) {
    && (forall id, e :: Slot(id, e) in b.endpubs <==> id in b.users && 0 <= e <= b.users[id].epoch)
    && (forall id, e :: Slot(id, e) in b.endpubs ==> b.endpubs[Slot(id, e)].pubkey == key(id, e))
    && (forall id :: id in b.users ==> b.users[id].epoch >= 0)
  }

  lemma CreateKeepsComplete(b: Book, key: KeyOf, id: UserId, interval: Option<int>)
    requires Complete(b, key)
    ensures Complete(AfterCreate(b, key, id, interval), key)
  {
  }

  lemma RotateKeepsComplete(b: Book, key: KeyOf, id: UserId)
    requires Complete(b, key)
    ensures Complete(AfterRotate(b, key, id), key)
  {
  }

  lemma {:induction false} RotateDueKeepsComplete(b: Book, key: KeyOf, ids: seq<UserId>, fallback: int)
    requires Complete(b, key)
    ensures Complete(AfterRotateDue(b, key, ids, fallback), key)
  {
    if ids != [] {
      var mid := AfterRotateDue(b, key, ids[..|ids| - 1], fallback);
      RotateDueKeepsComplete(b, key, ids[..|ids| - 1], fallback);
      RotateKeepsComplete(mid, key, ids[|ids| - 1]);
    }
  }

  predicate Distinct(ids: seq<UserId>) {
    forall j, k :: 0 <= j < k < |ids| ==> ids[j] != ids[k]
  }

  /** A tick rotates exactly the due users among those listed, once each, and
      leaves every other user and every older assignment as it was. */
  lemma {:induction false} TickRotatesExactlyTheDue(b: Book, key: KeyOf, ids: seq<UserId>, fallback: int)
    requires Complete(b, key) && Distinct(ids)
    ensures var b' := AfterRotateDue(b, key, ids, fallback);
            && b'.now == b.now && b'.users.Keys == b.users.Keys
            && (forall id :: id in b.users ==>
                  b'.users[id] == if id in ids && ClockRanOut(b.users[id], b.now, fallback)
                                  then b.users[id].(epoch := b.users[id].epoch + 1, rotatedAt := b.now)
                                  else b.users[id])
            && (forall s :: s in b.endpubs ==> s in b'.endpubs && b'.endpubs[s] == b.endpubs[s])
            && (forall s :: s in b'.endpubs && s !in b.endpubs ==> b'.endpubs[s].created == b.now)
  {
    if ids != [] {
      var n := |ids| - 1;
      TickRotatesExactlyTheDue(b, key, ids[..n], fallback);
      RotateDueKeepsComplete(b, key, ids[..n], fallback);
      assert ids == ids[..n] + [ids[n]];
      assert ids[n] !in ids[..n];
    }
  }

  // ------------------------------------------------------------ what is watched

  /** The slots of k successive epochs. */
  ghost function Slots(id: UserId, first: int, k: nat): (r: set<Slot>)
    ensures |r| == k && forall s :: s in r <==> s.user == id && first <= s.epoch < first + k
  {
    if k == 0 then {} else Slots(id, first, k - 1) + {Slot(id, first + k - 1)}
  }

  /** A user's watched epochs are exactly the last min(overlap, epoch) + 1. */
  lemma WatchesTheLastEpochs(b: Book, key: KeyOf, overlap: int, id: UserId)
    requires Complete(b, key) && id in b.users
    ensures var n := b.users[id].epoch;
            forall e :: Slot(id, e) in Watched(b, overlap) <==> Max(0, n - Max(overlap, 0)) <= e <= n
    ensures var n := b.users[id].epoch;
            |set s | s in Watched(b, overlap) && s.user == id| == (if Max(overlap, 0) < n then Max(overlap, 0) else n) + 1
  {
    var n := b.users[id].epoch;
    var first := Max(0, n - Max(overlap, 0));
    forall e ensures Slot(id, e) in Watched(b, overlap) <==> first <= e <= n {
    }
    var own := set s | s in Watched(b, overlap) && s.user == id;
    forall s ensures s in own <==> s in Slots(id, first, n + 1 - first) {
      assert s.user == id ==> s == Slot(id, s.epoch);
    }
    assert own == Slots(id, first, n + 1 - first);
  }

  /** Different assigned slots have different derived keys. */
  ghost predicate KeysDiffer(b: Book, key: KeyOf) {
    forall s, t :: s in b.endpubs && t in b.endpubs && key(s.user, s.epoch) == key(t.user, t.epoch) ==> s == t
  }

  /** Every endpub ever assigned still credits its own user and epoch, and no other,
      however far it has rotated out of the window. */
  lemma OldEndpubsStillCredit(b: Book, key: KeyOf, id: UserId, e: int)
    requires Complete(b, key) && KeysDiffer(b, key) && id in b.users && 0 <= e <= b.users[id].epoch
    ensures Credited(b, key(id, e)) == {Slot(id, e)}
  {
    assert Slot(id, e) in b.endpubs;
    forall s | s in Credited(b, key(id, e)) ensures s == Slot(id, e) {
      assert Slot(s.user, s.epoch) == s;
    }
  }

  // ------------------------------------------------------------------- pacing

  /** Successive endpubs of a user became current at least `gap` seconds apart. */
  ghost predicate Paced(b: Book, id: UserId, gap: int) {
    id in b.users ==>
      && (forall e :: 0 <= e <= b.users[id].epoch ==> Slot(id, e) in b.endpubs)
      && (forall e :: 0 <= e < b.users[id].epoch ==>
            b.endpubs[Slot(id, e)].created + gap <= b.endpubs[Slot(id, e + 1)].created)
      && b.users[id].epoch >= 0
      && b.users[id].rotatedAt == b.endpubs[Slot(id, b.users[id].epoch)].created <= b.now
  }

  /** Steps with automatic rotation only, under an interval that stays the same. */
  datatype Step = Tick(now: int) | Create(id: UserId, interval: Option<int>) | RotateDue(ids: seq<UserId>)

  function AfterStep(b: Book, key: KeyOf, s: Step, fallback: int): Book {
    match s
    case Tick(now) => if b.now <= now then b.(now := now) else b
    case Create(id, interval) => AfterCreate(b, key, id, interval)
    case RotateDue(ids) => AfterRotateDue(b, key, ids, fallback)
  }

  predicate StepDistinct(s: Step) {
    s.RotateDue? ==> Distinct(s.ids)
  }

  /** A book in which a user has stayed, or moved on by one due rotation. */
  lemma PacedOn(b: Book, b': Book, key: KeyOf, id: UserId, gap: int)
    requires Complete(b, key) && Complete(b', key) && Paced(b, id, gap) && id in b.users && id in b'.users && b'.now == b.now
    requires b'.users[id] == b.users[id]
             || (b'.users[id].epoch == b.users[id].epoch + 1 && b'.users[id].rotatedAt == b.now && b.now - b.users[id].rotatedAt >= gap)
    requires forall s :: s in b.endpubs ==> s in b'.endpubs && b'.endpubs[s] == b.endpubs[s]
    requires forall s :: s in b'.endpubs && s !in b.endpubs ==> b'.endpubs[s].created == b.now
    ensures Paced(b', id, gap)
  {
    var n := b.users[id].epoch;
    assert Slot(id, n + 1) !in b.endpubs;
    assert Slot(id, b'.users[id].epoch) in b'.endpubs;
    forall e | 0 <= e < b'.users[id].epoch ensures b'.endpubs[Slot(id, e)].created + gap <= b'.endpubs[Slot(id, e + 1)].created {
      assert Slot(id, e) in b.endpubs && Slot(id, e + 1) in b'.endpubs;
      assert e < n ==> Slot(id, e + 1) in b.endpubs;
    }
  }

  ghost predicate IntervalIs(b: Book, id: UserId, fallback: int, gap: int) {
    id in b.users ==> gap == match b.users[id].interval case Some(own) => own case None => fallback
  }

  lemma TickKeepsPaced(b: Book, key: KeyOf, ids: seq<UserId>, fallback: int, id: UserId, gap: int)
    requires Complete(b, key) && Distinct(ids) && Paced(b, id, gap)
    requires IntervalIs(b, id, fallback, gap)
    ensures Paced(AfterRotateDue(b, key, ids, fallback), id, gap)
  {
    TickRotatesExactlyTheDue(b, key, ids, fallback);
    RotateDueKeepsComplete(b, key, ids, fallback);
    if id in b.users {
      PacedOn(b, AfterRotateDue(b, key, ids, fallback), key, id, gap);
    }
  }

  ghost predicate BookRun(key: KeyOf, fallback: int, bs: seq<Book>, steps: seq<Step>) {
    && |bs| == |steps| + 1 && bs[0].users == map[] && bs[0].endpubs == map[]
    && forall k {:trigger steps[k]} :: 0 <= k < |steps| ==>
         StepDistinct(steps[k]) && bs[k + 1] == AfterStep(bs[k], key, steps[k], fallback)
  }

  lemma CreateKeepsPaced(b: Book, key: KeyOf, i: UserId, interval: Option<int>, id: UserId, gap: int)
    requires Complete(b, key) && Paced(b, id, gap)
    ensures Paced(AfterCreate(b, key, i, interval), id, gap)
  {
    var b' := AfterCreate(b, key, i, interval);
    assert i !in b.users ==> Slot(i, 0) !in b.endpubs;
  }

  lemma {:induction false} ReachablePaced(key: KeyOf, fallback: int, bs: seq<Book>, steps: seq<Step>, id: UserId, gap: int, k: nat)
    requires BookRun(key, fallback, bs, steps) && k < |bs|
    requires forall j :: 0 <= j < |bs| ==> IntervalIs(bs[j], id, fallback, gap)
    ensures Complete(bs[k], key) && Paced(bs[k], id, gap)
  {
    if k > 0 {
      ReachablePaced(key, fallback, bs, steps, id, gap, k - 1);
      assert bs[k] == AfterStep(bs[k - 1], key, steps[k - 1], fallback) && StepDistinct(steps[k - 1]);
      assert IntervalIs(bs[k - 1], id, fallback, gap);
      match steps[k - 1]
      case Tick(now) =>
      case Create(i, interval) =>
        CreateKeepsComplete(bs[k - 1], key, i, interval);
        CreateKeepsPaced(bs[k - 1], key, i, interval, id, gap);
      case RotateDue(ids) =>
        RotateDueKeepsComplete(bs[k - 1], key, ids, fallback);
        TickKeepsPaced(bs[k - 1], key, ids, fallback, id, gap);
    }
  }

  lemma {:induction false} Apart(b: Book, id: UserId, gap: int, e: int, f: int)
    requires Paced(b, id, gap) && id in b.users && 0 <= e <= f <= b.users[id].epoch
    ensures Slot(id, e) in b.endpubs && Slot(id, f) in b.endpubs
    ensures b.endpubs[Slot(id, e)].created + (f - e) * gap <= b.endpubs[Slot(id, f)].created
    decreases f - e
  {
    assert Slot(id, e) in b.endpubs && Slot(id, f) in b.endpubs;
    if e < f {
      Apart(b, id, gap, e, f - 1);
      assert b.endpubs[Slot(id, f - 1)].created + gap <= b.endpubs[Slot(id, f - 1 + 1)].created;
      assert (f - e) * gap == (f - 1 - e) * gap + gap;
    }
  }

  lemma Monotone(a: int, b: int, c: nat)
    requires a <= b
    ensures a * c <= b * c
  {
  }

  /** Under automatic rotation alone, with one interval throughout, an endpub is
      watched for at least (overlap + 1) intervals from when it became current. */
  lemma WatchedLongEnough(
      key: KeyOf, fallback: int, bs: seq<Book>, steps: seq<Step>, id: UserId, gap: nat, k: nat, overlap: nat, e: int)
    requires BookRun(key, fallback, bs, steps) && k < |bs|
    requires forall j :: 0 <= j < |bs| ==> IntervalIs(bs[j], id, fallback, gap)
    requires Slot(id, e) in bs[k].endpubs && Slot(id, e) !in Watched(bs[k], overlap)
    ensures bs[k].now >= bs[k].endpubs[Slot(id, e)].created + (overlap + 1) * gap
  {
    var b := bs[k];
    ReachablePaced(key, fallback, bs, steps, id, gap, k);
    var n := b.users[id].epoch;
    Apart(b, id, gap, e, n);
    assert (n - e) * gap >= (overlap + 1) * gap by {
      assert n - e >= overlap + 1;
      Monotone(overlap + 1, n - e, gap);
    }
  }

  // --------------------------------------------------------------- as it runs

  ghost function DueAmong(b: Book, ids: seq<UserId>, fallback: int): set<UserId> {
    set id | id in ids && id in b.users && ClockRanOut(b.users[id], b.now, fallback)
  }

  lemma UntouchedSoFar(b: Book, key: KeyOf, ids: seq<UserId>, k: nat, fallback: int)
    requires Complete(b, key) && Distinct(ids) && k < |ids| && ids[k] in b.users
    ensures AfterRotateDue(b, key, ids[..k], fallback).now == b.now && ids[k] in AfterRotateDue(b, key, ids[..k], fallback).users
    ensures AfterRotateDue(b, key, ids[..k + 1], fallback) ==
            if RotationDue(b, ids[k], fallback) then AfterRotate(AfterRotateDue(b, key, ids[..k], fallback), key, ids[k])
            else AfterRotateDue(b, key, ids[..k], fallback)
  {
    TickRotatesExactlyTheDue(b, key, ids[..k], fallback);
    assert ids[..k + 1][..k] == ids[..k];
  }

  lemma DueAmongNext(b: Book, ids: seq<UserId>, k: nat, fallback: int)
    requires Distinct(ids) && k < |ids|
    ensures DueAmong(b, ids[..k + 1], fallback) ==
            DueAmong(b, ids[..k], fallback) + if RotationDue(b, ids[k], fallback) then {ids[k]} else {}
    ensures ids[k] !in DueAmong(b, ids[..k], fallback)
  {
    assert ids[..k + 1] == ids[..k] + [ids[k]];
  }

  class Registry {
    const key: KeyOf
    var now: int
    var users: map<UserId, User>
    var endpubs: map<Slot, Assignment>

    constructor (key: KeyOf, at: int)
      ensures this.key == key && State() == Book(at, map[], map[]) && Complete(State(), key)
    {
      this.key := key;
      now, users, endpubs := at, map[], map[];
    }

    function State(): Book
      reads this
    {
      Book(now, users, endpubs)
    }

    method AssignEpoch(id: UserId, epoch: int) returns (endpub: Assignment)
      modifies this`endpubs
      ensures State() == Assign(old(State()), key, id, epoch)
      ensures Slot(id, epoch) in endpubs && endpub == endpubs[Slot(id, epoch)]
      ensures if Slot(id, epoch) in old(endpubs) then endpubs == old(endpubs) else endpub == Assignment(key(id, epoch), now)
    {
      var pubkey := key(id, epoch);
      if Slot(id, epoch) !in endpubs {
        endpubs := endpubs[Slot(id, epoch) := Assignment(pubkey, now)];
      }
      endpub := endpubs[Slot(id, epoch)];
    }

    method CreateUser(id: UserId, interval: Option<int>) returns (endpub: Option<Assignment>)
      requires Complete(State(), key)
      modifies this
      ensures State() == AfterCreate(old(State()), key, id, interval) && Complete(State(), key)
      ensures endpub.None? <==> id in old(users)
      ensures endpub.Some? ==> users == old(users)[id := User(interval, 0, now)] && endpub.value == Assignment(key(id, 0), now)
    {
      CreateKeepsComplete(State(), key, id, interval);
      if id in users { return None; }
      users := users[id := User(interval, 0, now)];
      var first := AssignEpoch(id, 0);
      return Some(first);
    }

    method Rotate(id: UserId) returns (endpub: Option<Assignment>)
      requires Complete(State(), key)
      modifies this
      ensures State() == AfterRotate(old(State()), key, id) && Complete(State(), key)
      ensures endpub.None? <==> id !in old(users)
      ensures endpub.Some? ==> id in users && endpub.value.pubkey == key(id, users[id].epoch)
    {
      RotateKeepsComplete(State(), key, id);
      if id !in users { return None; }
      var next := users[id].epoch + 1;
      users := users[id := users[id].(epoch := next, rotatedAt := now)];
      var latest := AssignEpoch(id, next);
      return Some(latest);
    }

    /** `rotate_due` over the users its SELECT lists, each with the row it read. */
    method RotateAllDue(ids: seq<UserId>, fallback: int) returns (rotated: nat)
      requires Complete(State(), key) && Distinct(ids) && forall k :: 0 <= k < |ids| ==> ids[k] in users
      modifies this
      ensures State() == AfterRotateDue(old(State()), key, ids, fallback) && Complete(State(), key)
      ensures rotated == |DueAmong(old(State()), ids, fallback)|
    {
      ghost var before := State();
      var rows := users;
      rotated := 0;
      for k := 0 to |ids|
        invariant State() == AfterRotateDue(before, key, ids[..k], fallback) && Complete(State(), key)
        invariant rows == before.users && now == before.now
        invariant rotated == |DueAmong(before, ids[..k], fallback)|
      {
        assert ids[..k + 1][..k] == ids[..k];
        DueAmongNext(before, ids, k, fallback);
        UntouchedSoFar(before, key, ids, k, fallback);
        var user := rows[ids[k]];
        var interval := EffectiveInterval(user, fallback);
        if interval > 0 && now - user.rotatedAt >= interval {
          var _ := Rotate(ids[k]);
          rotated := rotated + 1;
        }
      }
      assert ids[..|ids|] == ids;
    }
  }
}
