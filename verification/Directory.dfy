/** The key directory: a snapshot of public key to secret, rebuilt from the open
    derived invoices and the watched endpubs, and what it resolves. */
module Directory {
  import opened Common
  import opened Tables
  import opened Endpubs
  import opened Derive

  type Secret = bytes

  /** Key derivation, with the master key fixed: the secrets of invoices and
      endpubs, and the public key (hex) of a secret. */
  datatype Keys = Keys(
    master: Secret,
    invoiceSecret: InvoiceId -> Secret,
    endpubSecret: (UserId, int) -> Secret,
    publicOf: Secret -> string)

  type Snapshot = map<string, Secret>

  function InvoiceKey(k: Keys, id: InvoiceId): string {
    k.publicOf(k.invoiceSecret(id))
  }

  function EndpubKey(k: Keys): KeyOf {
    (user: UserId, epoch: int) => k.publicOf(k.endpubSecret(user, epoch))
  }

  /** How `create` chooses the recipient key of a new invoice. */
  function RecipientFor(k: Keys, id: InvoiceId, mode: Option<Mode>, default: Mode): string {
    if (if mode.Some? then mode.value else default) == Derived then InvoiceKey(k, id) else k.publicOf(k.master)
  }

  /** The rows `build_snapshot` turns into entries. */
  predicate Derivable(inv: Invoice, default: Mode) {
    inv.status == Open && EffectiveMode(inv, default) == Derived
  }

  // ------------------------------------------------------------- the snapshot

  ghost predicate FromInvoice(k: Keys, invoices: map<InvoiceId, Invoice>, default: Mode, pk: string, secret: Secret) {
    exists id :: id in invoices && Derivable(invoices[id], default) && invoices[id].recipient == pk && secret == k.invoiceSecret(id)
  }

  ghost predicate FromEndpub(k: Keys, b: Book, overlap: int, pk: string, secret: Secret) {
    exists s :: s in Watched(b, overlap) && b.endpubs[s].pubkey == pk && secret == k.endpubSecret(s.user, s.epoch)
  }

  /** A snapshot's contents, whatever the order of its inserts: each entry comes
      from a row, and each row has an entry (its own, or one inserted later under
      the same public key). */
  ghost predicate SnapshotOf(k: Keys, invoices: map<InvoiceId, Invoice>, b: Book, default: Mode, overlap: int, snap: Snapshot) {
    && (forall pk :: pk in snap ==>
          FromInvoice(k, invoices, default, pk, snap[pk]) || FromEndpub(k, b, overlap, pk, snap[pk]))
    && (forall id :: id in invoices && Derivable(invoices[id], default) ==> invoices[id].recipient in snap)
    && (forall s :: s in Watched(b, overlap) ==> b.endpubs[s].pubkey in snap)
  }

  datatype Resolution = Resolution(secret: Secret, pubkey: string)

  /** `resolve`: the master key first, then the snapshot. */
  function Resolve(k: Keys, snap: Snapshot, recipient: string): Option<Resolution> {
    if recipient == k.publicOf(k.master) then Some(Resolution(k.master, recipient))
    else if recipient in snap then Some(Resolution(snap[recipient], k.publicOf(snap[recipient])))
    else None
  }

  /** The keys `watched` lists. */
  function WatchedKeys(k: Keys, snap: Snapshot): set<string> {
    {k.publicOf(k.master)} + snap.Keys
  }

  /** Every stored recipient is the key `create` chose under some default mode. */
  ghost predicate RecipientsHold(k: Keys, invoices: map<InvoiceId, Invoice>) {
    forall id :: id in invoices ==> invoices[id].recipient == InvoiceKey(k, id) || invoices[id].recipient == k.publicOf(k.master)
  }

  /** Under one fixed default mode, derivable rows store their own child key. */
  ghost predicate RecipientsFixed(k: Keys, invoices: map<InvoiceId, Invoice>, default: Mode) {
    forall id :: id in invoices ==> invoices[id].recipient == RecipientFor(k, id, invoices[id].mode, default)
  }

  /** A key resolves iff it is watched, and then to the key pair with exactly that
      public key, even if the default mode was changed since an invoice was
      created. */
  lemma WatchedKeysResolve(k: Keys, invoices: map<InvoiceId, Invoice>, b: Book, default: Mode, overlap: int, snap: Snapshot, pk: string)
    requires RecipientsHold(k, invoices) && Complete(b, EndpubKey(k))
    requires SnapshotOf(k, invoices, b, default, overlap, snap)
    ensures Resolve(k, snap, pk).Some? <==> pk in WatchedKeys(k, snap)
    ensures var r := Resolve(k, snap, pk); r.Some? ==> r.value.pubkey == pk && k.publicOf(r.value.secret) == pk
  {
    if pk in snap && pk != k.publicOf(k.master) {
      if s :| s in Watched(b, overlap) && b.endpubs[s].pubkey == pk && snap[pk] == k.endpubSecret(s.user, s.epoch) {
        assert Slot(s.user, s.epoch) in b.endpubs;
      }
    }
  }

  /** Under one default mode throughout, every open invoice, of whatever mode, can be
      paid: the key it was given is watched and resolves to itself. */
  lemma OpenInvoicesCanBePaid(k: Keys, invoices: map<InvoiceId, Invoice>, b: Book, default: Mode, overlap: int, snap: Snapshot, id: InvoiceId)
    requires RecipientsFixed(k, invoices, default) && Complete(b, EndpubKey(k))
    requires SnapshotOf(k, invoices, b, default, overlap, snap)
    requires id in invoices && invoices[id].status == Open
    ensures invoices[id].recipient in WatchedKeys(k, snap)
    ensures Resolve(k, snap, invoices[id].recipient).Some? && Resolve(k, snap, invoices[id].recipient).value.pubkey == invoices[id].recipient
  {
    WatchedKeysResolve(k, invoices, b, default, overlap, snap, invoices[id].recipient);
  }

  ghost predicate MasterIsApart(k: Keys, invoices: map<InvoiceId, Invoice>, b: Book) {
    && (forall i :: i in invoices ==> InvoiceKey(k, i) != k.publicOf(k.master))
    && (forall s :: s in b.endpubs ==> EndpubKey(k)(s.user, s.epoch) != k.publicOf(k.master))
  }

  /** The invoices and endpubs on record, and the master, have different keys. */
  ghost predicate KeysAreDistinct(k: Keys, invoices: map<InvoiceId, Invoice>, b: Book) {
    && KeysDiffer(b, EndpubKey(k))
    && (forall i, j :: i in invoices && j in invoices && InvoiceKey(k, i) == InvoiceKey(k, j) ==> i == j)
    && (forall i, s :: i in invoices && s in b.endpubs ==> InvoiceKey(k, i) != EndpubKey(k)(s.user, s.epoch))
    && MasterIsApart(k, invoices, b)
  }

  function OfSlot(utf8: string -> bytes, s: Slot): Context
    requires 0 <= s.epoch < TWO_56
  {
    OfEndpub(utf8(s.user), s.epoch)
  }

  /** Every key on record is one `child_secret` derives, whatever retries it took. */
  ghost predicate Derived?(
      k: Keys, invoices: map<InvoiceId, Invoice>, b: Book, utf8: string -> bytes, hash: bytes -> bytes, valid: bytes -> bool)
  {
    && (forall i :: i in invoices ==>
         WellFormed(OfInvoice(utf8(i))) && Derives(hash, valid, k.master, OfInvoice(utf8(i)), k.invoiceSecret(i)))
    && (forall s :: s in b.endpubs ==>
         0 <= s.epoch < TWO_56 && Derives(hash, valid, k.master, OfSlot(utf8, s), k.endpubSecret(s.user, s.epoch)))
  }

  ghost predicate RetryOverlaps(
      k: Keys, b: Book, utf8: string -> bytes, hash: bytes -> bytes, valid: bytes -> bool, s: Slot, t: Slot, n: nat)
    requires forall s :: s in b.endpubs ==> 0 <= s.epoch < TWO_56
  {
    && s in b.endpubs && t in b.endpubs && n < COUNTERS
    && FirstValid(hash, valid, k.master, OfSlot(utf8, s), 0) && FirstValid(hash, valid, k.master, OfSlot(utf8, t), n)
    && Overlaps(OfSlot(utf8, s), OfSlot(utf8, t), n)
  }

  /** Some tenant's retry overlaps what another tenant hashes first, and both are
      the attempts they settle on. */
  ghost predicate SomeRetryOverlaps(
      k: Keys, b: Book, utf8: string -> bytes, hash: bytes -> bytes, valid: bytes -> bool)
    requires forall s :: s in b.endpubs ==> 0 <= s.epoch < TWO_56
  {
    exists s, t, n: nat :: RetryOverlaps(k, b, utf8, hash, valid, s, t, n)
  }

  /** Equal derived keys come from equal contexts, or from an overlap. */
  lemma EqualKeysOverlap(
      k: Keys, hash: bytes -> bytes, valid: bytes -> bool, c: Context, x: Secret, d: Context, y: Secret) returns (m: nat, n: nat)
    requires forall u, v :: k.publicOf(hash(u)) == k.publicOf(hash(v)) ==> u == v
    requires WellFormed(c) && WellFormed(d) && c != d
    requires Derives(hash, valid, k.master, c, x) && Derives(hash, valid, k.master, d, y) && k.publicOf(x) == k.publicOf(y)
    ensures m < COUNTERS && n < COUNTERS
    ensures FirstValid(hash, valid, k.master, c, m) && FirstValid(hash, valid, k.master, d, n)
    ensures (m == 0 && Overlaps(c, d, n)) || (n == 0 && Overlaps(d, c, m))
  {
    m :| 0 <= m < COUNTERS && FirstValid(hash, valid, k.master, c, m) && x == hash(k.master + Preimage(c, m));
    n :| 0 <= n < COUNTERS && FirstValid(hash, valid, k.master, d, n) && y == hash(k.master + Preimage(d, n));
    assert k.master + Preimage(c, m) == k.master + Preimage(d, n);
    assert (k.master + Preimage(c, m))[|k.master|..] == Preimage(c, m);
    assert (k.master + Preimage(d, n))[|k.master|..] == Preimage(d, n);
    PreimagesCollideIff(c, m, d, n);
  }

  lemma EqualSlotKeysOverlap(
      k: Keys, invoices: map<InvoiceId, Invoice>, b: Book, utf8: string -> bytes, hash: bytes -> bytes, valid: bytes -> bool, s: Slot, t: Slot)
    requires forall u, v :: k.publicOf(hash(u)) == k.publicOf(hash(v)) ==> u == v
    requires Derived?(k, invoices, b, utf8, hash, valid) && s in b.endpubs && t in b.endpubs && OfSlot(utf8, s) != OfSlot(utf8, t)
    requires EndpubKey(k)(s.user, s.epoch) == EndpubKey(k)(t.user, t.epoch)
    ensures SomeRetryOverlaps(k, b, utf8, hash, valid)
  {
    var m, n := EqualKeysOverlap(k, hash, valid, OfSlot(utf8, s), k.endpubSecret(s.user, s.epoch), OfSlot(utf8, t), k.endpubSecret(t.user, t.epoch));
    assert RetryOverlaps(k, b, utf8, hash, valid, s, t, n) || RetryOverlaps(k, b, utf8, hash, valid, t, s, m);
  }

  lemma NoOverlapNoCollision(
      k: Keys, invoices: map<InvoiceId, Invoice>, b: Book, utf8: string -> bytes, hash: bytes -> bytes, valid: bytes -> bool)
    requires forall x, y :: utf8(x) == utf8(y) ==> x == y
    requires forall u, v :: k.publicOf(hash(u)) == k.publicOf(hash(v)) ==> u == v
    requires Derived?(k, invoices, b, utf8, hash, valid) && MasterIsApart(k, invoices, b)
    requires !SomeRetryOverlaps(k, b, utf8, hash, valid)
    ensures KeysAreDistinct(k, invoices, b)
  {
    forall i, j | i in invoices && j in invoices && InvoiceKey(k, i) == InvoiceKey(k, j) ensures i == j {
      if OfInvoice(utf8(i)) != OfInvoice(utf8(j)) {
        var m, n := EqualKeysOverlap(k, hash, valid, OfInvoice(utf8(i)), k.invoiceSecret(i), OfInvoice(utf8(j)), k.invoiceSecret(j));
      }
    }
    forall i, s | i in invoices && s in b.endpubs ensures InvoiceKey(k, i) != EndpubKey(k)(s.user, s.epoch) {
      if InvoiceKey(k, i) == EndpubKey(k)(s.user, s.epoch) {
        var m, n := EqualKeysOverlap(k, hash, valid, OfInvoice(utf8(i)), k.invoiceSecret(i), OfSlot(utf8, s), k.endpubSecret(s.user, s.epoch));
      }
    }
    forall s, t | s in b.endpubs && t in b.endpubs && EndpubKey(k)(s.user, s.epoch) == EndpubKey(k)(t.user, t.epoch)
      ensures s == t
    {
      if OfSlot(utf8, s) != OfSlot(utf8, t) {
        EqualSlotKeysOverlap(k, invoices, b, utf8, hash, valid, s, t);
      }
    }
  }

  /** Derived by a hash and a public key without collisions, over all retries, the
      keys on record are distinct if and only if no tenant's retry overlaps another
      tenant's first attempt. */
  lemma KeysAreDistinctIffNoRetryOverlaps(
      k: Keys, invoices: map<InvoiceId, Invoice>, b: Book, utf8: string -> bytes, hash: bytes -> bytes, valid: bytes -> bool)
    requires forall x, y :: utf8(x) == utf8(y) ==> x == y
    requires forall u, v :: k.publicOf(hash(u)) == k.publicOf(hash(v)) ==> u == v
    requires Derived?(k, invoices, b, utf8, hash, valid) && MasterIsApart(k, invoices, b)
    ensures KeysAreDistinct(k, invoices, b) <==> !SomeRetryOverlaps(k, b, utf8, hash, valid)
  {
    if SomeRetryOverlaps(k, b, utf8, hash, valid) {
      var s, t, n: nat :| RetryOverlaps(k, b, utf8, hash, valid, s, t, n);
      RetryCollidesIff(OfSlot(utf8, s), OfSlot(utf8, t), n);
      assert |OfSlot(utf8, s).user| == |OfSlot(utf8, t).user| + 4;
      assert EndpubKey(k)(s.user, s.epoch) == EndpubKey(k)(t.user, t.epoch);
    } else {
      NoOverlapNoCollision(k, invoices, b, utf8, hash, valid);
    }
  }

  /** In particular the separation of the domains is all it takes when no tenant id
      holds a NUL byte, or when every derivation succeeds at its first attempt. */
  lemma SeparateDomainsGiveDistinctKeys(
      k: Keys, invoices: map<InvoiceId, Invoice>, b: Book, utf8: string -> bytes, hash: bytes -> bytes, valid: bytes -> bool)
    requires forall x, y :: utf8(x) == utf8(y) ==> x == y
    requires forall u, v :: k.publicOf(hash(u)) == k.publicOf(hash(v)) ==> u == v
    requires Derived?(k, invoices, b, utf8, hash, valid) && MasterIsApart(k, invoices, b)
    requires (forall s :: s in b.endpubs ==> NoNul(OfSlot(utf8, s)))
             || (forall s :: s in b.endpubs ==> FirstValid(hash, valid, k.master, OfSlot(utf8, s), 0))
    ensures KeysAreDistinct(k, invoices, b)
  {
    KeysAreDistinctIffNoRetryOverlaps(k, invoices, b, utf8, hash, valid);
    forall s, t, n: nat ensures !RetryOverlaps(k, b, utf8, hash, valid, s, t, n) {
      if s in b.endpubs && t in b.endpubs && NoNul(OfSlot(utf8, s)) {
        OverlapShowsAsNul(OfSlot(utf8, s), OfSlot(utf8, t), n);
      }
    }
  }

  lemma SlotKeys(k: Keys, b: Book)
    requires Complete(b, EndpubKey(k))
    ensures forall s :: s in b.endpubs ==> b.endpubs[s].pubkey == EndpubKey(k)(s.user, s.epoch)
  {
    forall s | s in b.endpubs ensures b.endpubs[s].pubkey == EndpubKey(k)(s.user, s.epoch) {
      assert Slot(s.user, s.epoch) in b.endpubs;
    }
  }

  /** An open invoice to be paid to its own key. */
  predicate AwaitsOnItsKey(inv: Invoice, default: Mode) {
    && inv.status == Open
    && match inv.mode case Some(mode) => mode == Derived case None => default == Derived
  }

  /** With distinct keys and one default mode throughout, the snapshot holds exactly
      the secret of the one identity behind each watched key. */
  lemma WatchedKeysAreUnambiguous(k: Keys, invoices: map<InvoiceId, Invoice>, b: Book, default: Mode, overlap: int, snap: Snapshot)
    requires KeysAreDistinct(k, invoices, b) && RecipientsFixed(k, invoices, default) && Complete(b, EndpubKey(k))
    requires SnapshotOf(k, invoices, b, default, overlap, snap)
    ensures forall id :: id in invoices && AwaitsOnItsKey(invoices[id], default) ==>
              InvoiceKey(k, id) in snap && snap[InvoiceKey(k, id)] == k.invoiceSecret(id)
    ensures forall s :: s in Watched(b, overlap) ==>
              EndpubKey(k)(s.user, s.epoch) in snap && snap[EndpubKey(k)(s.user, s.epoch)] == k.endpubSecret(s.user, s.epoch)
    ensures k.publicOf(k.master) !in snap
  {
    SlotKeys(k, b);
    forall id | id in invoices && AwaitsOnItsKey(invoices[id], default)
      ensures InvoiceKey(k, id) in snap && snap[InvoiceKey(k, id)] == k.invoiceSecret(id)
    {
      assert invoices[id].recipient == InvoiceKey(k, id);
    }
    forall s | s in Watched(b, overlap)
      ensures EndpubKey(k)(s.user, s.epoch) in snap && snap[EndpubKey(k)(s.user, s.epoch)] == k.endpubSecret(s.user, s.epoch)
    {
      assert b.endpubs[s].pubkey == EndpubKey(k)(s.user, s.epoch);
    }
  }

  /** Nor is any other key in it. */
  lemma NoOtherKeyIsWatched(k: Keys, invoices: map<InvoiceId, Invoice>, b: Book, default: Mode, overlap: int, snap: Snapshot, pk: string)
    requires RecipientsFixed(k, invoices, default) && Complete(b, EndpubKey(k))
    requires SnapshotOf(k, invoices, b, default, overlap, snap) && pk in snap
    ensures || (exists id :: id in invoices && AwaitsOnItsKey(invoices[id], default) && pk == InvoiceKey(k, id))
            || (exists s :: s in Watched(b, overlap) && pk == EndpubKey(k)(s.user, s.epoch))
  {
    SlotKeys(k, b);
  }

  /** And a payment to a derived invoice's key can only be matched to it. */
  lemma DerivedKeyHitsOneInvoice(k: Keys, db: Db, b: Book, default: Mode, id: InvoiceId)
    requires KeysAreDistinct(k, db.invoices, b) && RecipientsFixed(k, db.invoices, default)
    requires id in db.invoices && AwaitsOnItsKey(db.invoices[id], default)
    ensures forall r :: Answers(db, default, ByRecipient(InvoiceKey(k, id)), r) <==> r == Some(id)
  {
    assert HitsId(db, default, ByRecipient(InvoiceKey(k, id)), id);
    assert forall j :: j in db.invoices && HitsId(db, default, ByRecipient(InvoiceKey(k, id)), j) ==> j == id;
    assert OldestHit(db, default, ByRecipient(InvoiceKey(k, id)), id);
  }

  // --------------------------------------------------------------- as it runs

  class KeyDirectory {
    const keys: Keys
    var snapshot: Snapshot

    constructor (keys: Keys)
      ensures this.keys == keys && snapshot == map[]
    {
      this.keys := keys;
      snapshot := map[];
    }

    /** `build_snapshot` over the rows of its two queries. */
    method Build(invoices: map<InvoiceId, Invoice>, b: Book, default: Mode, overlap: int) returns (built: Snapshot)
      ensures SnapshotOf(keys, invoices, b, default, overlap, built)
    {
      var entries: Snapshot := map[];
      var todo := set id | id in invoices && Derivable(invoices[id], default);
      ghost var rows := todo;
      while todo != {}
        invariant todo <= rows
        invariant forall id :: id in rows - todo ==> invoices[id].recipient in entries
        invariant forall pk :: pk in entries ==> FromInvoice(keys, invoices, default, pk, entries[pk])
        decreases |todo|
      {
        var id :| id in todo;
        todo := todo - {id};
        entries := entries[invoices[id].recipient := keys.invoiceSecret(id)];
      }
      ghost var derived := entries.Keys;
      var slots := Watched(b, overlap);
      while slots != {}
        invariant slots <= Watched(b, overlap)
        invariant derived <= entries.Keys
        invariant forall s :: s in Watched(b, overlap) - slots ==> b.endpubs[s].pubkey in entries
        invariant forall pk :: pk in entries ==>
                    FromInvoice(keys, invoices, default, pk, entries[pk]) || FromEndpub(keys, b, overlap, pk, entries[pk])
        decreases |slots|
      {
        var s :| s in slots;
        slots := slots - {s};
        entries := entries[b.endpubs[s].pubkey := keys.endpubSecret(s.user, s.epoch)];
        assert FromEndpub(keys, b, overlap, b.endpubs[s].pubkey, keys.endpubSecret(s.user, s.epoch));
      }
      built := entries;
    }

    /** One maintenance tick: rotate, then overwrite the shared snapshot. */
    method Maintain(registry: Registry, ids: seq<UserId>, invoices: map<InvoiceId, Invoice>, default: Mode, interval: int, overlap: int)
      requires Complete(registry.State(), registry.key)
      requires Distinct(ids) && forall k :: 0 <= k < |ids| ==> ids[k] in registry.users
      modifies this, registry
      ensures registry.State() == if interval > 0 then AfterRotateDue(old(registry.State()), registry.key, ids, interval) else old(registry.State())
      ensures Complete(registry.State(), registry.key)
      ensures SnapshotOf(keys, invoices, registry.State(), default, overlap, snapshot)
    {
      if interval > 0 {
        var _ := registry.RotateAllDue(ids, interval);
      }
      var entries := Build(invoices, registry.State(), default, overlap);
      snapshot := entries;
    }
  }
}
