/** Child identities: what is hashed for an invoice and for a tenant's endpub. The
    hash, the validity test for scalars and the public key are parameters. */
module Derive {
  import opened Common

  type byte = x: int | 0 <= x < 256
  type bytes = seq<byte>

  const TWO_56: int := 0x100_0000_0000_0000

  /** Big-endian, w bytes. */
  function BigEndian(n: nat, w: nat): (b: bytes)
    ensures |b| == w
  {
    if w == 0 then [] else BigEndian(n / 256, w - 1) + [n % 256]
  }

  function Pow256(w: nat): (p: nat)
    ensures p >= 1
  {
    if w == 0 then 1 else 256 * Pow256(w - 1)
  }

  datatype Context = OfInvoice(id: bytes) | OfEndpub(user: bytes, epoch: i64)

  /** The context appended to the master key. */
  function ContextBytes(c: Context): bytes {
    match c
    case OfInvoice(id) => id
    case OfEndpub(user, epoch) => user + BigEndian(AsU64(epoch), 8)
  }

  /** What attempt `counter` hashes, after the master key. */
  function Preimage(c: Context, counter: nat): bytes {
    ContextBytes(c) + if counter > 0 then BigEndian(counter, 4) else []
  }

  /** Invoice ids are 32 lower-case hex digits; epochs count from zero. */
  predicate WellFormed(c: Context) {
    match c
    case OfInvoice(id) => |id| == 32 && forall k :: 0 <= k < 32 ==> (48 <= id[k] <= 57 || 97 <= id[k] <= 102)
    case OfEndpub(user, epoch) => 0 <= epoch < TWO_56
  }

  /** A tenant id without NUL bytes. */
  predicate NoNul(c: Context) {
    c.OfEndpub? ==> forall k :: 0 <= k < |c.user| ==> c.user[k] != 0
  }

  lemma {:induction false} BigEndianInjective(m: nat, n: nat, w: nat)
    requires m < Pow256(w) && n < Pow256(w) && BigEndian(m, w) == BigEndian(n, w)
    ensures m == n
  {
    if w > 0 {
      assert BigEndian(m, w)[..w - 1] == BigEndian(m / 256, w - 1) && BigEndian(n, w)[..w - 1] == BigEndian(n / 256, w - 1);
      assert BigEndian(m, w)[w - 1] == m % 256 && BigEndian(n, w)[w - 1] == n % 256;
      BigEndianInjective(m / 256, n / 256, w - 1);
    }
  }

  lemma {:induction false} LeadingZero(n: nat, w: nat)
    requires w >= 1 && n < Pow256(w - 1)
    ensures BigEndian(n, w)[0] == 0
  {
    if w > 1 {
      LeadingZero(n / 256, w - 1);
      assert BigEndian(n, w)[0] == BigEndian(n / 256, w - 1)[0];
    } else {
      assert BigEndian(0, 1) == BigEndian(0, 0) + [0];
    }
  }

  lemma Powers()
    ensures Pow256(7) == TWO_56 && Pow256(8) == TWO_64 && Pow256(4) == 0x1_0000_0000
  {
    assert Pow256(3) == 0x100_0000;
    assert Pow256(5) == 0x100_0000_0000;
  }

  /** An endpub's context has a zero byte right after the tenant id. */
  lemma ZeroAfterUser(c: Context)
    requires WellFormed(c) && c.OfEndpub?
    ensures |ContextBytes(c)| == |c.user| + 8 && ContextBytes(c)[|c.user|] == 0
  {
    Powers();
    LeadingZero(c.epoch, 8);
  }

  lemma EndpubContextsDiffer(c: Context, d: Context)
    requires WellFormed(c) && WellFormed(d) && c.OfEndpub? && d.OfEndpub? && ContextBytes(c) == ContextBytes(d)
    ensures c == d
  {
    Powers();
    var n := |c.user|;
    assert ContextBytes(c)[..n] == c.user && ContextBytes(d)[..n] == d.user;
    assert ContextBytes(c)[n..] == BigEndian(c.epoch, 8) && ContextBytes(d)[n..] == BigEndian(d.epoch, 8);
    BigEndianInjective(c.epoch, d.epoch, 8);
  }

  /** An invoice and an endpub never hash the same bytes, whatever the counters. */
  lemma DomainsAreSeparate(c: Context, m: nat, d: Context, n: nat)
    requires WellFormed(c) && c.OfInvoice? && WellFormed(d) && d.OfEndpub?
    ensures Preimage(c, m) != Preimage(d, n)
  {
    ZeroAfterUser(d);
    if |d.user| < 32 {
      assert Preimage(c, m)[|d.user|] == c.id[|d.user|];
      assert Preimage(d, n)[|d.user|] == 0;
    }
  }

  /** First attempts are pairwise distinct: over all invoice ids and all tenants
      and epochs, whatever bytes the tenant ids contain. */
  lemma FirstPreimagesAreDistinct(c: Context, d: Context)
    requires WellFormed(c) && WellFormed(d) && c != d
    ensures Preimage(c, 0) != Preimage(d, 0)
  {
    assert Preimage(c, 0) == ContextBytes(c) && Preimage(d, 0) == ContextBytes(d);
    if c.OfEndpub? && d.OfEndpub? {
      if ContextBytes(c) == ContextBytes(d) {
        EndpubContextsDiffer(c, d);
      }
    } else if c.OfInvoice? && d.OfEndpub? {
      DomainsAreSeparate(c, 0, d, 0);
    } else if d.OfInvoice? && c.OfEndpub? {
      DomainsAreSeparate(d, 0, c, 0);
    }
  }

  lemma SameLengthCounters(c: Context, m: nat, d: Context, n: nat)
    requires WellFormed(c) && WellFormed(d) && c.OfInvoice? == d.OfInvoice? && m < 0x1_0000_0000 && n < 0x1_0000_0000
    requires (m == 0) == (n == 0) && (c != d || m != n)
    ensures Preimage(c, m) != Preimage(d, n)
  {
    if Preimage(c, m) == Preimage(d, n) {
      Powers();
      var k := |ContextBytes(c)|;
      assert Preimage(c, m)[..k] == ContextBytes(c) && Preimage(d, n)[..k] == ContextBytes(d);
      if m > 0 {
        assert Preimage(c, m)[k..] == BigEndian(m, 4) && Preimage(d, n)[k..] == BigEndian(n, 4);
        BigEndianInjective(m, n, 4);
      }
      if c.OfEndpub? {
        EndpubContextsDiffer(c, d);
      }
    }
  }

  /** What retry n of tenant d hashes splits, four bytes into its epoch, into what
      tenant c hashes first. */
  predicate Overlaps(c: Context, d: Context, n: nat) {
    && c.OfEndpub? && d.OfEndpub? && n > 0
    && c.user == d.user + BigEndian(AsU64(d.epoch), 8)[..4]
    && BigEndian(AsU64(c.epoch), 8) == BigEndian(AsU64(d.epoch), 8)[4..] + BigEndian(n, 4)
  }

  lemma RetryCollidesIff(c: Context, d: Context, n: nat)
    requires c.OfEndpub? && d.OfEndpub? && n > 0
    ensures Preimage(c, 0) == Preimage(d, n) <==> Overlaps(c, d, n)
  {
    var epoch, head := BigEndian(AsU64(d.epoch), 8), d.user + BigEndian(AsU64(d.epoch), 8)[..4];
    assert Preimage(c, 0) == c.user + BigEndian(AsU64(c.epoch), 8);
    assert Preimage(d, n) == head + (epoch[4..] + BigEndian(n, 4));
    if Preimage(c, 0) == Preimage(d, n) {
      assert |c.user| == |head|;
      assert c.user == Preimage(c, 0)[..|head|] && head == Preimage(d, n)[..|head|];
      assert BigEndian(AsU64(c.epoch), 8) == Preimage(c, 0)[|head|..];
    }
  }

  /** Over all contexts and counters, two different attempts hash the same bytes if
      and only if one is a tenant's first and the other a retry that overlaps it. */
  lemma PreimagesCollideIff(c: Context, m: nat, d: Context, n: nat)
    requires WellFormed(c) && WellFormed(d) && m < 0x1_0000_0000 && n < 0x1_0000_0000 && (c != d || m != n)
    ensures Preimage(c, m) == Preimage(d, n) <==> (m == 0 && Overlaps(c, d, n)) || (n == 0 && Overlaps(d, c, m))
  {
    if c.OfInvoice? != d.OfInvoice? {
      if c.OfInvoice? { DomainsAreSeparate(c, m, d, n); } else { DomainsAreSeparate(d, n, c, m); }
    } else if (m == 0) == (n == 0) {
      SameLengthCounters(c, m, d, n);
    } else if c.OfEndpub? {
      if m == 0 { RetryCollidesIff(c, d, n); } else { RetryCollidesIff(d, c, m); }
    }
  }

  lemma OverlapShowsAsNul(c: Context, d: Context, n: nat)
    requires WellFormed(d) && NoNul(c)
    ensures !Overlaps(c, d, n)
  {
    if d.OfEndpub? && c.OfEndpub? {
      Powers();
      LeadingZero(d.epoch, 8);
      var head := d.user + BigEndian(AsU64(d.epoch), 8)[..4];
      assert head[|d.user|] == 0;
    }
  }

  /** For tenant ids without NUL bytes no two attempts collide, at any counters. */
  lemma AllPreimagesAreDistinct(c: Context, m: nat, d: Context, n: nat)
    requires WellFormed(c) && WellFormed(d) && NoNul(c) && NoNul(d) && m < 0x1_0000_0000 && n < 0x1_0000_0000
    requires c != d || m != n
    ensures Preimage(c, m) != Preimage(d, n)
  {
    PreimagesCollideIff(c, m, d, n);
    OverlapShowsAsNul(c, d, n);
    OverlapShowsAsNul(d, c, m);
  }

  lemma {:induction false} ZeroBytes(w: nat)
    ensures BigEndian(0, w) == seq(w, _ => 0)
  {
    if w > 0 { ZeroBytes(w - 1); }
  }

  // ------------------------------------------------------------ child_secret

  /** The first attempt whose digest is a valid scalar. */
  ghost predicate FirstValid(hash: bytes -> bytes, valid: bytes -> bool, master: bytes, c: Context, counter: nat) {
    && valid(hash(master + Preimage(c, counter)))
    && forall k :: 0 <= k < counter ==> !valid(hash(master + Preimage(c, k)))
  }

  const COUNTERS: int := 0x1_0000_0000

  /** What `child_secret` derives: the digest of the first valid attempt in range. */
  ghost predicate Derives(hash: bytes -> bytes, valid: bytes -> bool, master: bytes, c: Context, secret: bytes) {
    exists n: nat :: n < COUNTERS && FirstValid(hash, valid, master, c, n) && secret == hash(master + Preimage(c, n))
  }

  /** `child_secret`: rejection sampling. The search ends because some counter in
      range gives a valid scalar. */
  method ChildSecret(hash: bytes -> bytes, valid: bytes -> bool, master: bytes, c: Context, ghost bound: nat)
    returns (secret: bytes, counter: nat)
    requires valid(hash(master + Preimage(c, bound)))
    ensures FirstValid(hash, valid, master, c, counter) && secret == hash(master + Preimage(c, counter)) && counter <= bound
    ensures forall other :: FirstValid(hash, valid, master, c, other) ==> other == counter
    ensures bound < COUNTERS ==> Derives(hash, valid, master, c, secret)
  {
    counter := 0;
    while true
      invariant counter <= bound
      invariant forall k :: 0 <= k < counter ==> !valid(hash(master + Preimage(c, k)))
      decreases bound - counter
    {
      var material := master + ContextBytes(c);
      if counter > 0 {
        material := material + BigEndian(counter, 4);
      }
      assert material == master + Preimage(c, counter);
      secret := hash(material);
      if valid(secret) { return; }
      counter := counter + 1;
    }
  }

  /** Two identities derive the same secret, under a hash without collisions, if and
      only if the attempts they settle on overlap. */
  lemma SecretsCollideIff(hash: bytes -> bytes, valid: bytes -> bool, master: bytes, c: Context, m: nat, d: Context, n: nat)
    requires forall x, y :: hash(x) == hash(y) ==> x == y
    requires WellFormed(c) && WellFormed(d) && c != d && m < 0x1_0000_0000 && n < 0x1_0000_0000
    requires FirstValid(hash, valid, master, c, m) && FirstValid(hash, valid, master, d, n)
    ensures hash(master + Preimage(c, m)) == hash(master + Preimage(d, n)) <==>
            (m == 0 && Overlaps(c, d, n)) || (n == 0 && Overlaps(d, c, m))
  {
    PreimagesCollideIff(c, m, d, n);
    assert (master + Preimage(c, m))[|master|..] == Preimage(c, m);
    assert (master + Preimage(d, n))[|master|..] == Preimage(d, n);
  }

  /** The condition can be met: with NUL bytes in a tenant id, a hash without
      collisions, and one digest that is not a valid scalar, two tenants end up
      with the same secret. */
  lemma NulBytesCanCollide() returns (hash: bytes -> bytes, valid: bytes -> bool, c: Context, d: Context)
    ensures forall x, y :: hash(x) == hash(y) ==> x == y
    ensures WellFormed(c) && WellFormed(d) && c != d
    ensures FirstValid(hash, valid, [], c, 0) && FirstValid(hash, valid, [], d, 1)
    ensures hash([] + Preimage(c, 0)) == hash([] + Preimage(d, 1))
  {
    c, d := OfEndpub([0, 0, 0, 0], 0x1_0000_0001), OfEndpub([], 1);
    hash := x => x;
    var first := [] + Preimage(d, 0);
    valid := x => x != first;
    ZeroBytes(7);
    ZeroBytes(3);
    assert BigEndian(1, 8) == BigEndian(0, 7) + [1] == [0, 0, 0, 0, 0, 0, 0, 1];
    assert BigEndian(1, 4) == BigEndian(0, 3) + [1] == [0, 0, 0, 1];
    assert BigEndian(0x100, 5) == [0, 0, 0, 1, 0];
    assert BigEndian(0x1_0000, 6) == [0, 0, 0, 1, 0, 0];
    assert BigEndian(0x100_0000, 7) == [0, 0, 0, 1, 0, 0, 0];
    assert BigEndian(0x1_0000_0001, 8) == [0, 0, 0, 1, 0, 0, 0, 1];
    assert Overlaps(c, d, 1);
    RetryCollidesIff(c, d, 1);
    assert |Preimage(c, 0)| == 12 && |Preimage(d, 0)| == 8;
  }
}
