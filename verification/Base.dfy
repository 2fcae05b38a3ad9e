/** Types and small functions shared by every part of the model. */
module Base {

  datatype Option<+T> = None | Some(value: T)

  type Byte = b: int | 0 <= b < 256

  datatype IpAddr = V4(bits: nat) | V6(bits: nat)

  datatype SocketAddr = SocketAddr(ip: IpAddr, port: nat)

  /** The concatenation of a sequence of chunks. */
  function Flat(chunks: seq<seq<Byte>>): seq<Byte> {
    if chunks == [] then [] else chunks[0] + Flat(chunks[1..])
  }

  function Min(a: nat, b: nat): nat {
    if a < b then a else b
  }

  lemma {:induction false} FlatAppend(chunks: seq<seq<Byte>>, more: seq<seq<Byte>>)
    ensures Flat(chunks + more) == Flat(chunks) + Flat(more)
  {
    if chunks == [] {
      assert chunks + more == more;
    } else {
      var (first, rest) := (chunks[0], chunks[1..]);
      FlatAppend(rest, more);
      assert (chunks + more)[0] == first && (chunks + more)[1..] == rest + more;
      assert first + (Flat(rest) + Flat(more)) == first + Flat(rest) + Flat(more);
    }
  }

  lemma FlatPush(chunks: seq<seq<Byte>>, last: seq<Byte>)
    ensures Flat(chunks + [last]) == Flat(chunks) + last
  {
    FlatAppend(chunks, [last]);
    assert Flat([last]) == last + Flat([]);
  }
}

/** Quotients and remainders. */
module Arithmetic {

  lemma {:induction false} ProductGap(a: nat, b: nat, m: nat)
    requires a < b
    ensures a * m + m <= b * m
    decreases b
  {
    if a + 1 < b {
      ProductGap(a, b - 1, m);
    }
    assert b * m == (b - 1) * m + m;
  }

  lemma Division(n: nat, m: nat)
    requires m > 0
    ensures n == (n / m) * m + n % m && n % m < m
  {
  }

  lemma QuotientUnique(n: nat, m: nat, q: nat, r: nat)
    requires m > 0 && n == q * m + r && r < m
    ensures n / m == q && n % m == r
  {
    Division(n, m);
    Pinned(n, m, n / m, n % m, q, r);
  }

  lemma Pinned(n: nat, m: nat, x: nat, y: nat, q: nat, r: nat)
    requires n == x * m + y && y < m && n == q * m + r && r < m
    ensures x == q && y == r
  {
    if x < q {
      ProductGap(x, q, m);
    } else if q < x {
      ProductGap(q, x, m);
    }
  }

  /** One more digit of a remainder. */
  lemma ModStep(n: nat, m: nat)
    requires m > 0
    ensures n / 256 % m * 256 + n % 256 == n % (m * 256)
  {
    var (q, r) := (n / 256 / m, n / 256 % m);
    Division(n / 256, m);
    assert n == q * (m * 256) + (r * 256 + n % 256);
    QuotientUnique(n, m * 256, q, r * 256 + n % 256);
  }
}

/** Bounded tokio channels, as values. */
module Channels {

  /** A bounded multi-producer channel.  `queue` holds what was sent and not yet received, `sent`
      everything the channel ever took, in order.  `senders` and `receiver` say whether that end
      is still held by anyone. */
  datatype Channel<T> = Channel(cap: nat, queue: seq<T>, sent: seq<T>, senders: bool, receiver: bool) {

    predicate Full() {
      |queue| >= cap
    }

    /** `try_send` and `try_reserve` succeed exactly then. */
    predicate Accepts() {
      receiver && !Full()
    }

    function Push(x: T): Channel<T> {
      this.(queue := queue + [x], sent := sent + [x])
    }

    function Pop(): Channel<T>
      requires queue != []
    {
      this.(queue := queue[1..])
    }
  }

  function NewChannel<T>(cap: nat): Channel<T> {
    Channel(cap, [], [], true, true)
  }
}
