/**
  Out-of-order completion in the Corundum model: DescRing::updatePtr advances a 16-bit
  ring pointer over completed DMA tags, and remembers those that completed early in a
  bit vector indexed by the tag's low bits.
 */
module CompletionRing {
  import opened Modular

  const TAGS: nat := 0x1_0000      // ptr_t is uint16_t

  // ---------------------------------------------------------------- specification

  // The first tag from `from` on that is not done; tags are counted without wrapping.
  ghost function Least(from: nat, done: set<nat>): (r: nat)
    ensures r >= from && r !in done && forall t :: from <= t < r ==> t in done
    decreases done
  {
    if from !in done then from
    else
      var r := Least(from + 1, done - {from});
      assert forall t :: from < t < r ==> t in done - {from};
      r
  }

  // It is the only such tag.
  lemma LeastIs(from: nat, done: set<nat>, r: nat)
    requires r >= from && r !in done && forall t :: from <= t < r ==> t in done
    ensures r == Least(from, done)
  {
    var q := Least(from, done);
    assert q !in done && !(from <= q < r);
    assert r !in done && !(from <= r < q);
  }

  lemma AllBelow(from: nat, done: set<nat>, r: nat)
    requires r == Least(from, done - {r})
    ensures forall t :: from <= t < r ==> t in done
  {
    forall t | from <= t < r ensures t in done {
      assert t in done - {r};
    }
  }

  // -------------------------------------------------------- tags and vector positions

  lemma {:induction false} PowerDivides(k: nat, n: nat)
    requires k <= n
    ensures Pow2(n) == Pow2(k) * Pow2(n - k)
  {
    if k < n {
      PowerDivides(k, n - 1);
      assert Pow2(n - k) == 2 * Pow2(n - 1 - k);
      assert Pow2(k) * (2 * Pow2(n - 1 - k)) == 2 * (Pow2(k) * Pow2(n - 1 - k));
    }
  }

  lemma SixteenBits()
    ensures Pow2(16) == TAGS
  {
    assert Pow2(4) == 16;
    PowerDivides(4, 8);
    PowerDivides(8, 16);
  }

  // The low bits of a wrapped tag are those of the tag.
  lemma LowBits(t: nat, k: nat)
    requires k <= 16
    ensures Pow2(k) <= TAGS && (t % TAGS) % Pow2(k) == t % Pow2(k)
  {
    SixteenBits();
    PowerDivides(k, 16);
    SmallMultiple(Pow2(k), Pow2(16 - k));
    ModMod(t, TAGS, Pow2(k), Pow2(16 - k));
  }

  // Reducing first by a multiple of the modulus does not change the remainder.
  lemma ModMod(t: nat, m: nat, n: nat, q: nat)
    requires n > 0 && m == n * q && m > 0
    ensures (t % m) % n == t % n
  {
    var a, r := t / m, t % m;
    var b := r / n;
    assert t == m * a + r && r == n * b + r % n;
    assert m * a == n * (q * a);
    assert n * (q * a) + n * b == n * (q * a + b);
    ModIs(t, n, q * a + b, r % n);
  }

  // ----------------------------------------------------------------- the update itself

  /** The pointer and the vector of a ring of any size. */
  datatype Ptr = Ptr(pointer: nat, bits: seq<bool>)

  function TrueCount(bits: seq<bool>): nat {
    if bits == [] then 0 else TrueCount(bits[..|bits| - 1]) + if bits[|bits| - 1] then 1 else 0
  }

  lemma {:induction false} TrueCountSet(bits: seq<bool>, i: nat)
    requires i < |bits|
    ensures TrueCount(bits[i := true]) == TrueCount(bits[i := false]) + 1
    decreases |bits|
  {
    var n := |bits| - 1;
    if i == n {
      assert bits[i := true][..n] == bits[i := false][..n];
    } else {
      assert bits[i := true][..n] == bits[..n][i := true] && bits[i := false][..n] == bits[..n][i := false];
      TrueCountSet(bits[..n], i);
    }
  }

  // The do-while loop at vector position curr; every round clears a bit.
  function Swept(r: Ptr, curr: nat): Ptr
    requires curr < |r.bits| && r.pointer < TAGS
    decreases TrueCount(r.bits[curr := true])
  {
    var b, next := r.bits[curr := false], (curr + 1) % |r.bits|;
    TrueCountSet(r.bits, curr);
    assert b[next] ==> b[next := true] == b;
    if b[next] then Swept(Ptr(Add16(r.pointer), b), next) else Ptr(Add16(r.pointer), b)
  }

  // updatePtr for a completed tag.
  function Updated(r: Ptr, tag: nat): Ptr
    requires |r.bits| > 0 && r.pointer < TAGS
  {
    if tag != r.pointer then r.(bits := r.bits[tag % |r.bits| := true]) else Swept(r, tag % |r.bits|)
  }

  /** A ring of more than 2^16 entries fails: tag 0 completes early, then tag 0xffff, and the
      pointer stops at tag 0, which is already done. */
  lemma PointerStopsShort(k: nat)
    requires k > 16
    ensures var r := Updated(Updated(Ptr(TAGS - 1, seq(Pow2(k), _ => false)), 0), TAGS - 1);
            r.pointer == 0 && |r.bits| == Pow2(k) && r.bits[0]
  {
    LargerRing(k);
    var n := Pow2(k);
    var r0 := Ptr(TAGS - 1, seq(n, _ => false));
    ModSmall(0, n);
    var r1 := Updated(r0, 0);
    assert r1 == r0.(bits := r0.bits[0 := true]);
    ModSmall(TAGS - 1, n);
    var b := r1.bits[TAGS - 1 := false];
    assert !b[TAGS] && b[0];
    assert Swept(r1, TAGS - 1) == Ptr(0, b);
  }

  // ------------------------------------------------------------------------ the ring

  // The vector's bit of each tag in the window tells whether it is done.
  ghost predicate Marks(bits: seq<bool>, from: nat, done: set<nat>) {
    && |bits| > 0
    && forall t {:trigger t in done} :: from <= t < from + |bits| ==> (bits[Wrap(t, |bits|)] <==> t in done)
  }

  ghost function Marked(from: nat, done: set<nat>): iset<seq<bool>> {
    iset bits: seq<bool> | Marks(bits, from, done)
  }

  // Clearing the bit of the first tag moves the window on.
  lemma MarksNext(bits: seq<bool>, from: nat, done: set<nat>)
    requires Marks(bits, from, done) && from + |bits| !in done
    ensures Marks(bits[Wrap(from, |bits|) := false], from + 1, done)
  {
    var n := |bits|;
    var next := bits[Wrap(from, n) := false];
    WrapIsMod(from, n);
    WrapIsMod(from + n, n);
    ModWrap(from, n);
    forall t {:trigger t in done} | from + 1 <= t < from + 1 + n ensures next[Wrap(t, n)] <==> t in done {
      if t < from + n && Wrap(t, n) == Wrap(from, n) {
        WrapInjective(from, t - from, 0, n);
      }
    }
  }

  lemma MarksSet(bits: seq<bool>, from: nat, done: set<nat>, t: nat)
    requires Marks(bits, from, done) && from <= t < from + |bits|
    ensures Marks(bits[Wrap(t, |bits|) := true], from, done + {t})
  {
    var n := |bits|;
    forall u {:trigger u in done + {t}} | from <= u < from + n
      ensures bits[Wrap(t, n) := true][Wrap(u, n)] <==> u in done + {t}
    {
      assert u in done <==> bits[Wrap(u, n)];
      if u != t && Wrap(u, n) == Wrap(t, n) {
        WrapInjective(from, u - from, t - from, n);
      }
    }
  }

  class DescRing {
    const sizeLog: nat
    var pointer: nat                   // _headPtr or _tailPtr
    const cplDma: array<bool>
    ghost var count: nat               // the pointer, not wrapped
    ghost var done: set<nat>           // the tags completed so far, not wrapped
    ghost const first: nat             // the first tag of the run

    ghost predicate Valid()
      reads this, cplDma
    {
      && sizeLog <= 16 && cplDma.Length == Pow2(sizeLog)
      && pointer == count % TAGS
      && count == Least(first, done)
      && cplDma[..] in Marked(count, done)
      && forall t :: t in done ==> t < count + cplDma.Length
    }

    constructor (sizeLog: nat, pointer: nat)
      requires sizeLog <= 16 && pointer < TAGS
      ensures Valid() && this.sizeLog == sizeLog && this.pointer == pointer == first && done == {} && fresh(cplDma)
    {
      this.sizeLog, this.pointer := sizeLog, pointer;
      cplDma := new bool[Pow2(sizeLog)](_ => false);
      count, done, first := pointer, {}, pointer;
      new;
      ModSmall(pointer, TAGS);
      forall t {:trigger t in done} | count <= t < count + cplDma.Length ensures cplDma[..][Wrap(t, cplDma.Length)] <==> t in done {
        assert !cplDma[Wrap(t, cplDma.Length)];
      }
    }

    /** DescRing::updatePtr, for the completion of tag `t` of the window of _size tags from
        the pointer on.  Whatever the order of completions, the pointer is the first tag not
        completed, and the vector marks exactly the later ones that are. */
    method UpdatePtr(tag: nat, ghost t: nat) returns (moved: bool)
      requires Valid() && tag == t % TAGS && count <= t < count + cplDma.Length && t !in done
      modifies this`pointer, this`count, this`done, cplDma
      ensures Valid() && done == old(done) + {t} && old(count) <= count
      ensures moved <==> t == old(count)
      ensures Ptr(pointer, cplDma[..]) == Updated(old(Ptr(pointer, cplDma[..])), tag)
    {
      var size := cplDma.Length;
      SameTag(count, t, size, sizeLog);
      LowBits(t, sizeLog);
      WrapIsMod(t, size);
      if tag != pointer {
        MarksSet(cplDma[..], count, done, t);
        cplDma[tag % size] := true;
        done := done + {t};
        LeastIs(first, done, count);
        return false;
      }
      done := done + {t};
      Sweep(tag % size);
      moved := true;
    }

    // The do-while loop, from the completed tag at the pointer on.
    method Sweep(start: nat)
      requires sizeLog <= 16 && cplDma.Length == Pow2(sizeLog)
      requires pointer == count % TAGS && start == Wrap(count, cplDma.Length)
      requires count in done && count == Least(first, done - {count}) && Marks(cplDma[..], count, done - {count})
      requires forall t :: t in done ==> t < count + cplDma.Length
      modifies this`pointer, this`count, cplDma
      ensures Valid() && old(count) < count
      ensures Ptr(pointer, cplDma[..]) == Swept(old(Ptr(pointer, cplDma[..])), start)
    {
      var curr, more := start, true;
      ghost var from, rest := count, done - {count};
      ghost var target := Swept(Ptr(pointer, cplDma[..]), curr);
      AllBelow(first, done, count);
      while more
        invariant from <= count && pointer == count % TAGS && curr == Wrap(count, cplDma.Length)
        invariant forall t :: first <= t < count ==> t in done
        invariant cplDma[..] in Marked(count, rest)
        invariant if more then count in done else count !in done && from < count
        invariant target == if more then Swept(Ptr(pointer, cplDma[..]), curr) else Ptr(pointer, cplDma[..])
        decreases more, from + cplDma.Length - count
      {
        curr := Advance(curr, rest);
        more := cplDma[curr];
      }
      LeastIs(first, done, count);
      MarksForget(cplDma[..], count, rest, done, from);
    }

    // One round of that loop: the pointer and the vector.
    method Advance(curr: nat, ghost rest: set<nat>) returns (next: nat)
      requires pointer == count % TAGS && cplDma[..] in Marked(count, rest) && curr == Wrap(count, cplDma.Length)
      requires cplDma.Length > 0 && count + cplDma.Length !in rest
      modifies this`pointer, this`count, cplDma
      ensures count == old(count) + 1 && pointer == count % TAGS
      ensures next == Wrap(count, cplDma.Length) && cplDma[..] in Marked(count, rest)
      ensures cplDma[next] <==> count in rest
      ensures old(Swept(Ptr(pointer, cplDma[..]), curr)) ==
              if cplDma[next] then Swept(Ptr(pointer, cplDma[..]), next) else Ptr(pointer, cplDma[..])
    {
      ghost var bits := cplDma[..];
      MarksNext(bits, count, rest);
      pointer := Add16(pointer);
      cplDma[curr] := false;
      assert cplDma[..] == bits[curr := false];
      WrapAdd(count, 1, cplDma.Length);
      ModAdd(count, 1, TAGS);
      next := (curr + 1) % cplDma.Length;
      count := count + 1;
    }
  }

  // A tag behind the pointer is in no window any more.
  lemma MarksForget(bits: seq<bool>, from: nat, rest: set<nat>, done: set<nat>, gone: nat)
    requires Marks(bits, from, rest) && rest == done - {gone} && gone < from
    ensures Marks(bits, from, done)
  {
    forall t {:trigger t in done} | from <= t < from + |bits| ensures bits[Wrap(t, |bits|)] <==> t in done {
      assert t in rest <==> t in done;
    }
  }

  // ptr_t's increment.
  function Add16(x: nat): (r: nat)
    requires x < TAGS
    ensures r == (x + 1) % TAGS
  {
    if x + 1 < TAGS then x + 1 else 0
  }

  // Within a window of at most 2^16 tags, equal 16-bit tags are the same tag.
  lemma SameTag(a: nat, t: nat, size: nat, k: nat)
    requires k <= 16 && size == Pow2(k) && a <= t < a + size
    ensures t % TAGS == a % TAGS <==> t == a
  {
    LowBits(0, k);
    if t > a {
      ModDistinct(a, t, TAGS);
    }
  }

  // The vector is determined by the pointer and the completed tags.
  lemma MarksUnique(a: seq<bool>, b: seq<bool>, from: nat, done: set<nat>)
    requires Marks(a, from, done) && Marks(b, from, done) && |a| == |b|
    ensures a == b
  {
    var n := |a|;
    forall i | 0 <= i < n ensures a[i] == b[i] {
      var t := TagAt(from, i, n);
      assert a[Wrap(t, n)] <==> t in done;
    }
  }

  // Every position of the vector belongs to some tag of the window.
  lemma TagAt(from: nat, i: nat, n: nat) returns (t: nat)
    requires i < n
    ensures from <= t < from + n && Wrap(t, n) == i
  {
    var f := Wrap(from, n);
    t := if f <= i then from + (i - f) else from + (i + n - f);
    WrapIsMod(t, n);
    WrapAdd(from, t - from, n);
    if f <= i {
      ModIs(i, n, 0, i);
    } else {
      ModIs(i + n, n, 1, i);
    }
  }

  /** Completing some tags of the window in any order leaves the pointer at the first tag
      that is not completed. */
  method CompleteAll(ring: DescRing, tags: seq<nat>)
    requires ring.Valid()
    requires forall i :: 0 <= i < |tags| ==> ring.count <= tags[i] < ring.count + ring.cplDma.Length && tags[i] !in ring.done
    requires forall i, j :: 0 <= i < j < |tags| ==> tags[i] != tags[j]
    modifies ring, ring.cplDma
    ensures ring.Valid() && ring.done == old(ring.done) + Members(tags, |tags|)
    ensures ring.count == Least(ring.first, old(ring.done) + Members(tags, |tags|))
  {
    ghost var before := ring.done;
    for i := 0 to |tags|
      invariant ring.Valid() && old(ring.count) <= ring.count
      invariant ring.done == before + Members(tags, i)
    {
      NotYet(tags, i);
      CompleteOne(ring, tags[i]);
    }
  }

  method CompleteOne(ring: DescRing, t: nat)
    requires ring.Valid() && ring.first <= t < ring.count + ring.cplDma.Length && t !in ring.done
    modifies ring, ring.cplDma
    ensures ring.Valid() && ring.done == old(ring.done) + {t} && old(ring.count) <= ring.count
  {
    StillInWindow(ring.first, ring.done, ring.count, t);
    var moved := ring.UpdatePtr(t % TAGS, t);
  }

  ghost function Members(tags: seq<nat>, n: nat): set<nat>
    requires n <= |tags|
  {
    if n == 0 then {} else Members(tags, n - 1) + {tags[n - 1]}
  }

  lemma {:induction false} MembersFrom(tags: seq<nat>, n: nat, t: nat) returns (i: nat)
    requires n <= |tags| && t in Members(tags, n)
    ensures i < n && tags[i] == t
  {
    if t == tags[n - 1] {
      i := n - 1;
    } else {
      i := MembersFrom(tags, n - 1, t);
    }
  }

  lemma NotYet(tags: seq<nat>, n: nat)
    requires n < |tags| && forall i, j :: 0 <= i < j < |tags| ==> tags[i] != tags[j]
    ensures tags[n] !in Members(tags, n)
  {
    if tags[n] in Members(tags, n) {
      var i := MembersFrom(tags, n, tags[n]);
      assert false;
    }
  }

  lemma StillInWindow(from: nat, done: set<nat>, r: nat, t: nat)
    requires r == Least(from, done) && t !in done && t >= from
    ensures t >= r
  {
    assert !(from <= t < r);
  }

  // The vector position of a tag, and whether the loop's next position is the next tag's.
  function Position(t: nat, k: nat): nat {
    (t % TAGS) % Pow2(k)
  }

  predicate Follows(t: nat, k: nat) {
    Position(t + 1, k) == (Position(t, k) + 1) % Pow2(k)
  }

  /** The loop looks at the next tag's bit for every tag if and only if the ring has at most
      2^16 entries: a larger vector is left at its entry 2^16 when the pointer wraps. */
  lemma LoopFollowsTagsIff(k: nat)
    ensures (forall t: nat :: Follows(t, k)) <==> k <= 16
  {
    if k <= 16 {
      forall t: nat ensures Follows(t, k) {
        LowBits(t, k);
        LowBits(t + 1, k);
        ModAdd(t, 1, Pow2(k));
      }
    } else {
      LargerRing(k);
      assert !Follows(TAGS - 1, k);
    }
  }

  lemma LargerRing(k: nat)
    requires k > 16
    ensures Position(TAGS - 1, k) == TAGS - 1 && Position(TAGS, k) == 0
    ensures TAGS < Pow2(k) && TAGS % Pow2(k) == TAGS
  {
    SixteenBits();
    PowerDivides(17, k);
    assert Pow2(17) == 2 * Pow2(16);
    SmallMultiple(Pow2(17), Pow2(k - 17));
    ModSmall(TAGS - 1, TAGS);
    ModSmall(TAGS - 1, Pow2(k));
    ModSmall(TAGS, Pow2(k));
    ModIs(TAGS, TAGS, 1, 0);
    ModSmall(0, Pow2(k));
  }
}
