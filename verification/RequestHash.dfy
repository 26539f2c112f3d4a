/** The request hash: SHA-256 over a canonical, length-prefixed encoding of a proposal. */
module RequestHashing {
  import opened Contracts

  const REQUEST_HASH_DOMAIN := "sentrygate.request.v1"

  /** The low `width` bytes of `n`, most significant first. */
  function BigEndian(n: nat, width: nat): (s: string)
    ensures |s| == width
  {
    if width == 0 then "" else BigEndian(n / 256, width - 1) + [(n % 256) as char]
  }

  /** `n` needs no more than `width` bytes. */
  predicate Fits(n: nat, width: nat) {
    if width == 0 then n == 0 else Fits(n / 256, width - 1)
  }

  function Field(s: string): string {
    BigEndian(|s|, 8) + s
  }

  function Fields(fields: seq<string>): string {
    if fields == [] then "" else Field(fields[0]) + Fields(fields[1..])
  }

  function FieldsOf(p: AgentProposal): seq<string> {
    [p.id, p.command, p.targetId, p.payload]
  }

  function Canonical(p: AgentProposal): string {
    REQUEST_HASH_DOMAIN + Fields(FieldsOf(p))
  }

  function RequestHash(p: AgentProposal): HashText {
    Sha256Hex(Canonical(p))
  }

  lemma {:induction false} BigEndianInjective(a: nat, b: nat, width: nat)
    requires Fits(a, width) && Fits(b, width)
    requires BigEndian(a, width) == BigEndian(b, width)
    ensures a == b
  {
    if width > 0 {
      var x, y := BigEndian(a, width), BigEndian(b, width);
      assert x[..width - 1] == BigEndian(a / 256, width - 1) && y[..width - 1] == BigEndian(b / 256, width - 1);
      assert x[width - 1] == (a % 256) as char && y[width - 1] == (b % 256) as char;
      BigEndianInjective(a / 256, b / 256, width - 1);
    }
  }

  lemma {:induction false} SmallFits(n: nat, limit: nat, width: nat)
    requires n < limit && limit == Limit(width)
    ensures Fits(n, width)
    decreases width
  {
    if width > 0 {
      SmallFits(n / 256, Limit(width - 1), width - 1);
    }
  }

  /** 256 to the power of `width`. */
  function Limit(width: nat): (n: nat)
    ensures n > 0
  {
    if width == 0 then 1 else 256 * Limit(width - 1)
  }

  lemma GoLengthFits(s: GoString)
    ensures Fits(|s|, 8)
  {
    assert Limit(2) == 0x1_0000;
    assert Limit(4) == 0x1_0000_0000;
    assert Limit(6) == 0x1_0000_0000_0000;
    assert Limit(8) == 0x1_0000_0000_0000_0000;
    SmallFits(|s|, Limit(8), 8);
  }

  /** A field's length prefix says where it ends, so equal streams start with equal fields. */
  lemma FieldSplits(a: GoString, b: GoString, restA: string, restB: string)
    requires Field(a) + restA == Field(b) + restB
    ensures a == b && restA == restB
  {
    var x, y := Field(a) + restA, Field(b) + restB;
    assert x[..8] == BigEndian(|a|, 8) && y[..8] == BigEndian(|b|, 8);
    GoLengthFits(a);
    GoLengthFits(b);
    BigEndianInjective(|a|, |b|, 8);
    assert x[8..8 + |a|] == a && y[8..8 + |b|] == b;
    assert x[8 + |a|..] == restA && y[8 + |b|..] == restB;
  }

  lemma {:induction false} FieldsInjective(a: seq<GoString>, b: seq<GoString>)
    requires |a| == |b| && Fields(a) == Fields(b)
    ensures a == b
  {
    if a != [] {
      FieldSplits(a[0], b[0], Fields(a[1..]), Fields(b[1..]));
      FieldsInjective(a[1..], b[1..]);
      assert a == [a[0]] + a[1..] && b == [b[0]] + b[1..];
    }
  }

  /** Two proposals hash alike only if every field is alike. */
  lemma RequestHashBinds(p: AgentProposal, q: AgentProposal)
    ensures RequestHash(p) == RequestHash(q) <==> p == q
  {
    if RequestHash(p) == RequestHash(q) {
      var n := |REQUEST_HASH_DOMAIN|;
      assert Canonical(p)[n..] == Fields(FieldsOf(p)) && Canonical(q)[n..] == Fields(FieldsOf(q));
      var a: seq<GoString>, b: seq<GoString> := [p.id, p.command, p.targetId, p.payload], [q.id, q.command, q.targetId, q.payload];
      assert FieldsOf(p) == a && FieldsOf(q) == b;
      FieldsInjective(a, b);
      assert p.id == a[0] && p.command == a[1] && p.targetId == a[2] && p.payload == a[3];
      assert q.id == b[0] && q.command == b[1] && q.targetId == b[2] && q.payload == b[3];
    }
  }

  // ---- The layout, byte by byte -----------------------------------------------------

  lemma DivideTwice(n: nat, a: nat)
    requires a > 0
    ensures (n / 256) / a == n / (256 * a)
  {
    var q, r := n / 256, n % 256;
    var x, y := q / a, q % a;
    assert n == 256 * (a * x + y) + r == (256 * a) * x + (256 * y + r);
    assert 256 * y + r < 256 * a;
    DivideUnique(n, 256 * a, x, 256 * y + r);
  }

  lemma Distribute(d: int, y: int)
    requires d > 0 && y >= 0
    ensures d * (y + 1) == d * y + d >= d
    ensures d * (-y - 1) == -(d * y) - d <= 0 - d
  {
  }

  lemma FarMultiple(d: int, x: int)
    requires d > 0 && x != 0
    ensures d * x >= d || d * x <= 0 - d
  {
    if x > 0 {
      Distribute(d, x - 1);
    } else {
      Distribute(d, -x - 1);
    }
  }

  lemma DivideUnique(n: nat, d: nat, q: nat, r: nat)
    requires d > 0 && n == d * q + r && r < d
    ensures n / d == q
  {
    var m := n / d;
    assert d * (q - m) == n % d - r;
    if q != m {
      FarMultiple(d, q - m);
    }
  }

  /** Byte `i` of a length is the digit of weight 256 to the power of the bytes that follow it. */
  lemma {:induction false} BigEndianAt(n: nat, width: nat, i: nat)
    requires i < width
    ensures BigEndian(n, width)[i] as int == (n / Limit(width - 1 - i)) % 256
  {
    if i < width - 1 {
      BigEndianAt(n / 256, width - 1, i);
      DivideTwice(n, Limit(width - 2 - i));
    }
  }

  /** Eight bytes, most significant first. */
  function Prefix(n: nat): string {
    seq(8, i requires 0 <= i < 8 => ((n / Limit(7 - i)) % 256) as char)
  }

  lemma PrefixIsBigEndian(n: nat)
    ensures Prefix(n) == BigEndian(n, 8)
  {
    forall i | 0 <= i < 8 ensures Prefix(n)[i] == BigEndian(n, 8)[i] {
      BigEndianAt(n, 8, i);
    }
  }

  /** What is hashed: the domain, then ID, command, target and payload, each after its length. */
  lemma CanonicalLayout(p: AgentProposal)
    ensures RequestHash(p) ==
            Sha256Hex("sentrygate.request.v1"
                      + (Prefix(|p.id|) + p.id) + (Prefix(|p.command|) + p.command)
                      + (Prefix(|p.targetId|) + p.targetId) + (Prefix(|p.payload|) + p.payload))
  {
    PrefixIsBigEndian(|p.id|);
    PrefixIsBigEndian(|p.command|);
    PrefixIsBigEndian(|p.targetId|);
    PrefixIsBigEndian(|p.payload|);
    FourFields(p.id, p.command, p.targetId, p.payload);
  }

  lemma Regroup(x: string, a: string, b: string, c: string, d: string)
    ensures x + (a + (b + (c + (d + "")))) == x + a + b + c + d
  {
  }

  lemma FourFields(a: string, b: string, c: string, d: string)
    ensures REQUEST_HASH_DOMAIN + Fields([a, b, c, d]) ==
            REQUEST_HASH_DOMAIN + Field(a) + Field(b) + Field(c) + Field(d)
  {
    assert [a, b, c, d][1..] == [b, c, d] && [b, c, d][1..] == [c, d] && [c, d][1..] == [d];
    var empty: seq<string> := [];
    assert [d][1..] == empty && Fields(empty) == "";
    assert Fields([d]) == Field(d) + "";
    assert Fields([c, d]) == Field(c) + Fields([d]);
    assert Fields([b, c, d]) == Field(b) + Fields([c, d]);
    Regroup(REQUEST_HASH_DOMAIN, Field(a), Field(b), Field(c), Field(d));
  }

  lemma {:induction false} FieldsAppend(fields: seq<string>, f: string)
    ensures Fields(fields + [f]) == Fields(fields) + Field(f)
  {
    if fields == [] {
      assert fields + [f] == [f];
      assert Fields([f]) == Field(f) + Fields([]);
    } else {
      assert (fields + [f])[1..] == fields[1..] + [f];
      FieldsAppend(fields[1..], f);
      assert Fields(fields + [f]) == Field(fields[0]) + (Fields(fields[1..]) + Field(f));
    }
  }

  /** The running hash: the bytes written so far, digested at the end. */
  method ComputeRequestHash(p: AgentProposal) returns (h: HashText)
    ensures h == RequestHash(p)
  {
    var written: string := REQUEST_HASH_DOMAIN;
    var fields: seq<string> := [p.id, p.command, p.targetId, p.payload];
    var i := 0;
    while i < |fields|
      invariant 0 <= i <= |fields|
      invariant written == REQUEST_HASH_DOMAIN + Fields(fields[..i])
    {
      FieldsAppend(fields[..i], fields[i]);
      assert fields[..i + 1] == fields[..i] + [fields[i]];
      var n := BigEndian(|fields[i]|, 8);
      written := written + n;
      written := written + fields[i];
      i := i + 1;
    }
    assert fields[..i] == FieldsOf(p);
    h := Sha256Hex(written);
  }
}
