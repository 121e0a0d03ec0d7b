/** jit::DeviceSet: a growable bitset of 64-bit words, keyed by small device ids.
    Device id `id` lives in bit `id % 64` of word `id / 64`.

    A 64-bit word is modelled by the set of its bit positions that are 1: OR of
    two words is the union of their sets, `1ull << b` is `{b}`, and a word equals
    zero exactly when its set is empty. */
module DeviceSets {

  /** kWordSize: the number of device ids one storage word addresses. */
  const WordSize: nat := 64

  /** A bit position within one storage word. */
  type BitIndex = b: nat | b < WordSize

  /** One uint64 storage word, as the positions of its 1 bits. */
  type Word = set<BitIndex>

  /** The word at index `i`; a word past the end reads as zero, which is what
      `storage_.resize(n, 0)` fills in. */
  function WordAt(s: seq<Word>, i: nat): Word
  {
    if i < |s| then s[i] else {}
  }

  /** Whether device id `id` is a member of the set whose storage is `s`. */
  predicate InStorage(s: seq<Word>, id: nat)
  {
    id % WordSize in WordAt(s, id / WordSize)
  }

  function Max(a: nat, b: nat): nat
  {
    if a < b then b else a
  }

  /** Every member of a storage vector is below 64 times its length. */
  lemma MembersInRange(s: seq<Word>, id: nat)
    requires InStorage(s, id)
    ensures id < |s| * WordSize
  {
    assert id / WordSize < |s|;
  }

  /** The device ids a storage vector denotes. */
  ghost function Elements(s: seq<Word>): (r: set<nat>)
    ensures forall id: nat :: id in r <==> InStorage(s, id)
  {
    forall id: nat | InStorage(s, id) ensures id < |s| * WordSize {
      MembersInRange(s, id);
    }
    set id: nat | id < |s| * WordSize && InStorage(s, id)
  }

  /** The id held by bit `b` of word `i` is `64 * i + b`. */
  lemma IdOfBit(i: nat, b: BitIndex)
    ensures (i * WordSize + b) / WordSize == i && (i * WordSize + b) % WordSize == b
  {
  }

  /** A set is empty exactly when every storage word is zero (absl::c_all_of over storage_). */
  lemma EmptyIffZeroWords(s: seq<Word>)
    ensures Elements(s) == {} <==> forall i :: 0 <= i < |s| ==> s[i] == {}
  {
    if i :| 0 <= i < |s| && s[i] != {} {
      var b :| b in s[i];
      IdOfBit(i, b);
      assert InStorage(s, i * WordSize + b);
    }
  }

  // ---------------------------------------------------------------------------
  // The storage after Insert and UnionWith

  /** The storage after `Insert(id)`: grown with zero words to reach word `id / 64`
      if it is too short, then bit `id % 64` of that word set. */
  function Inserted(s: seq<Word>, id: nat): (r: seq<Word>)
    ensures |r| == Max(|s|, id / WordSize + 1)
    ensures Elements(r) == Elements(s) + {id}
  {
    var wordIndex := id / WordSize;
    var grown := if wordIndex < |s| then s else s + seq(wordIndex + 1 - |s|, _ => {});
    var r := grown[wordIndex := grown[wordIndex] + {id % WordSize}];
    assert forall i :: 0 <= i < |r| ==> r[i] == if i == wordIndex then WordAt(s, i) + {id % WordSize} else WordAt(s, i);
    forall x: nat ensures InStorage(r, x) <==> InStorage(s, x) || x == id {
    }
    r
  }

  /** The storage after `UnionWith(other)`: as long as the longer of the two, each
      word the OR of the words at that index. */
  function Unioned(s: seq<Word>, t: seq<Word>): (r: seq<Word>)
    ensures |r| == Max(|s|, |t|)
    ensures Elements(r) == Elements(s) + Elements(t)
  {
    seq(Max(|s|, |t|), i requires 0 <= i => WordAt(s, i) + WordAt(t, i))
  }

  /** Bit `id % 64` of word `id / 64` is set, storage is never shrunk, and no
      other bit of any word changes (new words start out as zero). */
  lemma InsertedWords(s: seq<Word>, id: nat)
    ensures var r := Inserted(s, id);
      && |s| <= |r|
      && id % WordSize in r[id / WordSize]
      && (forall i: nat, b: BitIndex :: i < |r| && i * WordSize + b != id ==>
            (b in r[i] <==> b in WordAt(s, i)))
  {
    var r := Inserted(s, id);
    forall i: nat, b: BitIndex | i < |r| && i * WordSize + b != id
      ensures b in r[i] <==> b in WordAt(s, i)
    {
      IdOfBit(i, b);
      assert InStorage(r, i * WordSize + b) <==> InStorage(s, i * WordSize + b);
    }
    assert InStorage(r, id);
  }

  /** Inserting an id that is already there changes nothing. */
  lemma InsertedIdempotent(s: seq<Word>, id: nat)
    ensures Inserted(Inserted(s, id), id) == Inserted(s, id)
  {
    var r := Inserted(s, id);
    assert InStorage(r, id);
  }

  /** Union of storage vectors is commutative, word for word. */
  lemma UnionedCommutes(s: seq<Word>, t: seq<Word>)
    ensures Unioned(s, t) == Unioned(t, s)
  {
    var a, b := Unioned(s, t), Unioned(t, s);
    assert forall i :: 0 <= i < |a| ==> a[i] == b[i];
  }

  /** A union with itself changes nothing. */
  lemma UnionedIdempotent(s: seq<Word>)
    ensures Unioned(s, s) == s
  {
    var a := Unioned(s, s);
    assert forall i :: 0 <= i < |a| ==> a[i] == s[i];
  }

  /** Unions can be regrouped: the order in which sets are merged does not matter. */
  lemma UnionedAssociates(s: seq<Word>, t: seq<Word>, u: seq<Word>)
    ensures Unioned(Unioned(s, t), u) == Unioned(s, Unioned(t, u))
  {
    var a, b := Unioned(Unioned(s, t), u), Unioned(s, Unioned(t, u));
    assert forall i :: 0 <= i < |a| ==> a[i] == b[i];
  }

  // ---------------------------------------------------------------------------
  // Enumeration in ascending id order (DeviceSet::ForEach)

  ghost predicate StrictlyAscending(ids: seq<nat>)
  {
    forall i, j :: 0 <= i < j < |ids| ==> ids[i] < ids[j]
  }

  /** The members below `k`, in ascending order. */
  function MembersBelow(s: seq<Word>, k: nat): (r: seq<nat>)
    ensures forall x: nat :: x in r <==> x < k && InStorage(s, x)
    ensures StrictlyAscending(r)
  {
    if k == 0 then []
    else
      var below := MembersBelow(s, k - 1);
      assert forall i :: 0 <= i < |below| ==> below[i] < k - 1 by {
        forall i | 0 <= i < |below| ensures below[i] < k - 1 {
          assert below[i] in below;
        }
      }
      below + if InStorage(s, k - 1) then [k - 1] else []
  }

  /** The members, in the ascending order in which ForEach visits them. */
  function Members(s: seq<Word>): (r: seq<nat>)
    ensures forall x: nat :: x in r <==> x in Elements(s)
    ensures StrictlyAscending(r)
  {
    forall x: nat | InStorage(s, x) ensures x < |s| * WordSize {
      MembersInRange(s, x);
    }
    MembersBelow(s, |s| * WordSize)
  }

  /** Each enumeration prefix is a prefix of any longer one. */
  lemma {:induction false} MembersBelowPrefix(s: seq<Word>, k: nat, n: nat)
    requires k <= n
    ensures MembersBelow(s, k) <= MembersBelow(s, n)
    decreases n - k
  {
    if k < n {
      MembersBelowPrefix(s, k, n - 1);
    }
  }

  /** Two ascending enumerations of the same ids are the same sequence. */
  lemma {:induction false} AscendingUnique(a: seq<nat>, b: seq<nat>)
    requires StrictlyAscending(a) && StrictlyAscending(b)
    requires forall x :: x in a <==> x in b
    ensures a == b
    decreases |a|
  {
    assert a != [] ==> a[0] in a;
    assert b != [] ==> b[0] in b;
    if a != [] && b != [] {
      assert a[0] == b[0] by {
        assert a[0] in b && b[0] in a;
      }
      assert a == [a[0]] + a[1..] && b == [b[0]] + b[1..];
      forall x ensures x in a[1..] <==> x in b[1..] {
        if x in a[1..] {
          var i :| 0 <= i < |a[1..]| && a[1..][i] == x;
          assert a[0] < a[i + 1];
          assert x in b && x != b[0];
        }
        if x in b[1..] {
          var i :| 0 <= i < |b[1..]| && b[1..][i] == x;
          assert b[0] < b[i + 1];
          assert x in a && x != a[0];
        }
      }
      AscendingUnique(a[1..], b[1..]);
    }
  }

  // ---------------------------------------------------------------------------
  // The object

  class DeviceSet {
    /** storage_: word `i` holds the bits of device ids 64*i .. 64*i + 63. */
    var storage: seq<Word>

    /** The device ids this set holds. */
    ghost function Contents(): set<nat>
      reads this
    {
      Elements(storage)
    }

    constructor ()
      ensures storage == [] && Contents() == {}
    {
      storage := [];
    }

    method Insert(id: nat)
      modifies this
      ensures storage == Inserted(old(storage), id)
      ensures Contents() == old(Contents()) + {id}
    {
      var wordIndex := id / WordSize;
      var bitIndex := id % WordSize;
      if wordIndex >= |storage| {
        storage := storage + seq(wordIndex + 1 - |storage|, _ => {});
      }
      storage := storage[wordIndex := storage[wordIndex] + {bitIndex}];
    }

    /** ORs `other` into this set, word by word; `other` may be this set itself. */
    method UnionWith(other: DeviceSet)
      modifies this
      ensures storage == Unioned(old(storage), old(other.storage))
      ensures Contents() == old(Contents()) + old(other.Contents())
      ensures other != this ==> other.storage == old(other.storage)
    {
      ghost var s, t := storage, other.storage;
      if |other.storage| > |storage| {
        storage := storage + seq(|other.storage| - |storage|, _ => {});
      }
      var i := 0;
      while i < |other.storage|
        invariant |storage| == Max(|s|, |t|) && |other.storage| == |t|
        invariant 0 <= i <= |t|
        invariant other != this ==> other.storage == t
        invariant other == this ==> s == t
        invariant forall k :: 0 <= k < i ==> storage[k] == WordAt(s, k) + WordAt(t, k)
        invariant forall k :: i <= k < |storage| ==> storage[k] == WordAt(s, k)
      {
        storage := storage[i := storage[i] + other.storage[i]];
        i := i + 1;
      }
      assert forall k :: 0 <= k < |storage| ==> storage[k] == Unioned(s, t)[k];
    }

    function IsEmpty(): (r: bool)
      reads this
      ensures r <==> Contents() == {}
    {
      EmptyIffZeroWords(storage);
      forall i | 0 <= i < |storage| :: storage[i] == {}
    }
  }
}
