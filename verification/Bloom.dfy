/** The 64 x 64-bit bloom filter over source ULIDs that short-cuts the inclusion test.

    A 64-bit word is modelled by the set of its bits that are one, so OR-ing is union and "some bit of
    a is missing in b" is a non-empty difference. The hash (xxhash in the program) is a parameter:
    everything holds for every hash function. */
module Bloom {
  import opened Block

  const WORDS: nat := 64
  const BITS: nat := 64

  type Word = set<nat>
  type Words = w: seq<Word> | |w| == WORDS witness seq(WORDS, _ => {})

  function Bucket(h: nat): nat {
    (h / BITS) % WORDS
  }

  function Bit(h: nat): nat {
    h % BITS
  }

  function BitsOf(hash: ULID -> nat, ids: set<ULID>, bucket: nat): Word {
    set id | id in ids && Bucket(hash(id)) == bucket :: Bit(hash(id))
  }

  /** w is the filter of a set of ULIDs: each word has the bits of the ULIDs in its bucket, no others. */
  predicate IsFilterOf(w: Words, hash: ULID -> nat, ids: set<ULID>) {
    forall i :: 0 <= i < WORDS ==> w[i] == BitsOf(hash, ids, i)
  }

  predicate WordsIncluded(a: Words, b: Words) {
    forall i :: 0 <= i < WORDS ==> a[i] <= b[i]
  }

  /** Why the shortcut is safe: a subset has an included filter, whatever the hash. */
  lemma SubsetHasIncludedFilter(hash: ULID -> nat, a: set<ULID>, wa: Words, b: set<ULID>, wb: Words)
    requires a <= b && IsFilterOf(wa, hash, a) && IsFilterOf(wb, hash, b)
    ensures WordsIncluded(wa, wb)
  {
    forall i | 0 <= i < WORDS ensures wa[i] <= wb[i] {
      assert BitsOf(hash, a, i) <= BitsOf(hash, b, i);
    }
  }

  class BloomFilter {
    var words: array<Word>

    ghost predicate Valid()
      reads this
    {
      words.Length == WORDS
    }

    function Contents(): Words
      requires Valid()
      reads this, words
    {
      words[..]
    }

    constructor ()
      ensures Valid() && fresh(words)
      ensures forall hash :: IsFilterOf(Contents(), hash, {})
    {
      words := new Word[WORDS](_ => {});
    }

    /** Adding a ULID turns the filter of a set into the filter of the set with it. */
    method Add(hash: ULID -> nat, id: ULID, ghost ids: set<ULID>)
      requires Valid() && IsFilterOf(Contents(), hash, ids)
      modifies words
      ensures Valid() && IsFilterOf(Contents(), hash, ids + {id})
    {
      var h := hash(id);
      var bucket := Bucket(h);
      words[bucket] := words[bucket] + {Bit(h)};
      forall i | 0 <= i < WORDS ensures words[i] == BitsOf(hash, ids + {id}, i) {
        assert BitsOf(hash, ids + {id}, i) == BitsOf(hash, ids, i) + if i == bucket then {Bit(h)} else {};
        assert old(Contents())[i] == BitsOf(hash, ids, i);
      }
    }
  }

  /** The word-by-word inclusion test. */
  method IsIncludedIn(a: Words, b: Words) returns (included: bool)
    ensures included <==> WordsIncluded(a, b)
  {
    for i := 0 to WORDS
      invariant forall k :: 0 <= k < i ==> a[k] <= b[k]
    {
      if a[i] - b[i] != {} {
        return false;
      }
      assert a[i] <= b[i] by {
        forall x | x in a[i] ensures x in b[i] { assert x !in a[i] - b[i]; }
      }
    }
    return true;
  }
}
