/** The transcription result cache (src/utils/cache.ts): a bounded, age-limited store
    keyed by the hex SHA-256 of the audio file. The store's `items` object is kept as its
    list of entries in insertion order, which is what `Object.entries` walks; the clock
    (`Date.now()`) and the digest (`crypto.subtle.digest`) are parameters. */
module Cache {
  import opened Results
  import opened Text
  import opened Domain

  /** Default capacity. */
  const MaxCacheItems: nat := 100
  /** Default maximum age: 7 days in milliseconds. */
  const MaxCacheAge: int := 7 * 24 * 60 * 60 * 1000

  /** `CacheItem`. */
  datatype CacheItem = CacheItem(text: string, timestamps: seq<Segment>, fileHash: string, provider: string,
                                 createdAt: int, fileSize: nat, duration: real)

  /** `Omit<CacheItem, 'createdAt'>`, the argument of `addItem`. */
  datatype NewItem = NewItem(text: string, timestamps: seq<Segment>, fileHash: string, provider: string,
                             fileSize: nat, duration: real)

  function Stamp(item: NewItem, now: int): CacheItem
  {
    CacheItem(item.text, item.timestamps, item.fileHash, item.provider, now, item.fileSize, item.duration)
  }

  datatype Entry = Entry(key: string, item: CacheItem)

  /** The store's state: the entries of `items` in order, `maxItems` and `maxAge`. */
  datatype CacheState = CacheState(entries: seq<Entry>, maxItems: nat, maxAge: int)

  /** The store as created: empty, with the default bounds. */
  const InitialCache: CacheState := CacheState([], MaxCacheItems, MaxCacheAge)

  /** Object keys are unique. */
  predicate UniqueKeys(es: seq<Entry>)
  {
    forall i, j :: 0 <= i < j < |es| ==> es[i].key != es[j].key
  }

  /** `items[key]`. */
  function Lookup(es: seq<Entry>, key: string): Option<CacheItem>
  {
    if |es| == 0 then None
    else if es[0].key == key then Some(es[0].item)
    else Lookup(es[1..], key)
  }

  lemma {:induction false} LookupFound(es: seq<Entry>, i: nat)
    requires UniqueKeys(es) && i < |es|
    ensures Lookup(es, es[i].key) == Some(es[i].item)
  {
    if i > 0 {
      LookupFound(es[1..], i - 1);
    }
  }

  /** `{ ...items, [key]: item }`: an existing key keeps its place and takes the new value,
      a new key goes last. */
  function Put(es: seq<Entry>, key: string, item: CacheItem): (r: seq<Entry>)
    requires UniqueKeys(es)
    ensures UniqueKeys(r)
    ensures Lookup(r, key) == Some(item)
    ensures forall k :: k != key ==> Lookup(r, k) == Lookup(es, k)
    ensures |r| == if Lookup(es, key).Some? then |es| else |es| + 1
  {
    if |es| == 0 then [Entry(key, item)]
    else if es[0].key == key then
      assert forall k :: k != key ==> Lookup(es, k) == Lookup(es[1..], k);
      [Entry(key, item)] + es[1..]
    else
      var rest := Put(es[1..], key, item);
      assert forall j :: 0 <= j < |rest| ==> rest[j].key != es[0].key by {
        forall j | 0 <= j < |rest| ensures rest[j].key != es[0].key {
          if rest[j].key == es[0].key {
            LookupFound(rest, j);
            assert Lookup(es[1..], es[0].key).Some?;
            LookupSome(es[1..], es[0].key);
          }
        }
      }
      [es[0]] + rest
  }

  lemma {:induction false} LookupSome(es: seq<Entry>, key: string)
    requires Lookup(es, key).Some?
    ensures exists i :: 0 <= i < |es| && es[i].key == key
  {
    if es[0].key != key {
      LookupSome(es[1..], key);
      var i :| 0 <= i < |es[1..]| && es[1..][i].key == key;
      assert es[i + 1].key == key;
    }
  }

  /** `delete items[key]` / filtering out `key`: the other entries stay, in order. */
  function Delete(es: seq<Entry>, key: string): (r: seq<Entry>)
    requires UniqueKeys(es)
    ensures UniqueKeys(r)
    ensures Lookup(r, key).None?
    ensures forall k :: k != key ==> Lookup(r, k) == Lookup(es, k)
    ensures |r| == if Lookup(es, key).Some? then |es| - 1 else |es|
    ensures forall j :: 0 <= j < |r| ==> r[j] in es
  {
    if |es| == 0 then []
    else if es[0].key == key then
      assert Lookup(es[1..], key).None? by {
        if Lookup(es[1..], key).Some? {
          LookupSome(es[1..], key);
        }
      }
      Delete(es[1..], key)
    else
      var rest := Delete(es[1..], key);
      assert forall j :: 0 <= j < |rest| ==> rest[j].key != es[0].key by {
        forall j | 0 <= j < |rest| ensures rest[j].key != es[0].key {
          assert rest[j] in es[1..];
        }
      }
      [es[0]] + rest
  }

  /** The index of the first entry with the smallest `createdAt`: element 0 of the
      (stable) ascending sort by `createdAt`. */
  function OldestIndex(es: seq<Entry>): (i: nat)
    requires |es| > 0
    ensures i < |es|
    ensures forall j :: 0 <= j < |es| ==> es[i].item.createdAt <= es[j].item.createdAt
    ensures forall j :: 0 <= j < i ==> es[j].item.createdAt > es[i].item.createdAt
  {
    if |es| == 1 then 0
    else
      var k := OldestIndex(es[1..]) + 1;
      if es[0].item.createdAt <= es[k].item.createdAt then 0 else k
  }

  /** `addItem`: at capacity the oldest entry is deleted first (even when `key` is already
      present), then `key` is written with `createdAt = now`. */
  function AddItem(c: CacheState, key: string, item: NewItem, now: int): (r: CacheState)
    requires c.maxItems > 0 && UniqueKeys(c.entries)
    ensures UniqueKeys(r.entries) && r.maxItems == c.maxItems && r.maxAge == c.maxAge
    ensures Lookup(r.entries, key) == Some(Stamp(item, now))
    ensures |c.entries| < c.maxItems ==>
              (forall k :: k != key ==> Lookup(r.entries, k) == Lookup(c.entries, k))
              && |r.entries| <= c.maxItems
    ensures |c.entries| >= c.maxItems ==>
              var victim := c.entries[OldestIndex(c.entries)].key;
              (forall k :: k != key ==> Lookup(r.entries, k) == if k == victim then None else Lookup(c.entries, k))
              && |r.entries| <= |c.entries|
              && (Lookup(c.entries, key).None? ==> |r.entries| == |c.entries|)
  {
    if |c.entries| >= c.maxItems then
      var victim := c.entries[OldestIndex(c.entries)].key;
      LookupFound(c.entries, OldestIndex(c.entries));
      c.(entries := Put(Delete(c.entries, victim), key, Stamp(item, now)))
    else
      c.(entries := Put(c.entries, key, Stamp(item, now)))
  }

  /** The entry at `victim` is one with the smallest `createdAt` in the cache. */
  lemma VictimIsOldest(c: CacheState)
    requires |c.entries| > 0
    ensures var v := c.entries[OldestIndex(c.entries)];
            forall k :: Lookup(c.entries, k).Some? ==> v.item.createdAt <= Lookup(c.entries, k).value.createdAt
  {
    var v := c.entries[OldestIndex(c.entries)];
    forall k | Lookup(c.entries, k).Some? ensures v.item.createdAt <= Lookup(c.entries, k).value.createdAt {
      LookupIsEntry(c.entries, k);
    }
  }

  lemma {:induction false} LookupIsEntry(es: seq<Entry>, key: string)
    requires Lookup(es, key).Some?
    ensures exists i :: 0 <= i < |es| && es[i] == Entry(key, Lookup(es, key).value)
  {
    if es[0].key != key {
      LookupIsEntry(es[1..], key);
      var i :| 0 <= i < |es[1..]| && es[1..][i] == Entry(key, Lookup(es[1..], key).value);
      assert es[i + 1] == es[1..][i];
    }
  }

  /** Starting from a cache within its bound, `addItem` keeps it within its bound. */
  lemma AddItemBounded(c: CacheState, key: string, item: NewItem, now: int)
    requires c.maxItems > 0 && UniqueKeys(c.entries) && |c.entries| <= c.maxItems
    ensures |AddItem(c, key, item, now).entries| <= c.maxItems
  {
  }

  /** `now - createdAt <= maxAge`: the boundary `getItem` and `prune` share. */
  predicate Live(it: CacheItem, now: int, maxAge: int)
  {
    now - it.createdAt <= maxAge
  }

  /** `getItem`: the item and the state after the call. An expired item is removed. */
  function GetItem(c: CacheState, key: string, now: int): (r: (Option<CacheItem>, CacheState))
    requires UniqueKeys(c.entries)
    ensures Lookup(c.entries, key).None? ==> r == (None, c)
    ensures r.0.Some? <==> Lookup(c.entries, key).Some? && Live(Lookup(c.entries, key).value, now, c.maxAge)
    ensures r.0.Some? ==> r.0 == Lookup(c.entries, key) && r.1 == c
    ensures r.0.None? ==> r.1.entries == Delete(c.entries, key) && r.1.maxItems == c.maxItems && r.1.maxAge == c.maxAge
  {
    match Lookup(c.entries, key)
    case None =>
      assert Delete(c.entries, key) == c.entries by { DeleteAbsent(c.entries, key); }
      (None, c)
    case Some(it) =>
      if now - it.createdAt > c.maxAge then (None, RemoveItem(c, key)) else (Some(it), c)
  }

  lemma {:induction false} DeleteAbsent(es: seq<Entry>, key: string)
    requires UniqueKeys(es) && Lookup(es, key).None?
    ensures Delete(es, key) == es
  {
    if |es| > 0 {
      DeleteAbsent(es[1..], key);
    }
  }

  /** `removeItem`. */
  function RemoveItem(c: CacheState, key: string): (r: CacheState)
    requires UniqueKeys(c.entries)
    ensures Lookup(r.entries, key).None?
    ensures forall k :: k != key ==> Lookup(r.entries, k) == Lookup(c.entries, k)
    ensures r.maxItems == c.maxItems && r.maxAge == c.maxAge
  {
    c.(entries := Delete(c.entries, key))
  }

  /** `clear`. */
  function Clear(c: CacheState): (r: CacheState)
    ensures forall k :: Lookup(r.entries, k).None?
    ensures r.maxItems == c.maxItems && r.maxAge == c.maxAge
  {
    c.(entries := [])
  }

  function KeepLive(es: seq<Entry>, now: int, maxAge: int): (r: seq<Entry>)
    requires UniqueKeys(es)
    ensures UniqueKeys(r)
    ensures forall k :: Lookup(r, k) == if Lookup(es, k).Some? && Live(Lookup(es, k).value, now, maxAge) then Lookup(es, k) else None
    ensures forall j :: 0 <= j < |r| ==> r[j] in es && Live(r[j].item, now, maxAge)
    ensures |r| <= |es|
  {
    if |es| == 0 then []
    else
      var rest := KeepLive(es[1..], now, maxAge);
      assert forall j :: 0 <= j < |rest| ==> rest[j].key != es[0].key by {
        forall j | 0 <= j < |rest| ensures rest[j].key != es[0].key {
          assert rest[j] in es[1..];
        }
      }
      if Live(es[0].item, now, maxAge) then [es[0]] + rest else
        assert Lookup(es[1..], es[0].key).None? by {
          if Lookup(es[1..], es[0].key).Some? {
            LookupSome(es[1..], es[0].key);
          }
        }
        rest
  }

  /** `prune`: keeps exactly the live entries. */
  function Prune(c: CacheState, now: int): (r: CacheState)
    requires UniqueKeys(c.entries)
    ensures UniqueKeys(r.entries) && r.maxItems == c.maxItems && r.maxAge == c.maxAge
    ensures forall k :: Lookup(r.entries, k).Some? <==> Lookup(c.entries, k).Some? && Live(Lookup(c.entries, k).value, now, c.maxAge)
    ensures forall k :: Lookup(r.entries, k).Some? ==> Lookup(r.entries, k) == Lookup(c.entries, k)
  {
    c.(entries := KeepLive(c.entries, now, c.maxAge))
  }

  /** `getItem` answers exactly what a `prune` at the same instant would keep. */
  lemma GetItemAgreesWithPrune(c: CacheState, key: string, now: int)
    requires UniqueKeys(c.entries)
    ensures GetItem(c, key, now).0 == Lookup(Prune(c, now).entries, key)
  {
  }

  /** Pruning twice at the same instant is the same as pruning once. */
  lemma {:induction false} PruneIdempotent(c: CacheState, now: int)
    requires UniqueKeys(c.entries)
    ensures Prune(Prune(c, now), now) == Prune(c, now)
  {
    KeepLiveAllLive(KeepLive(c.entries, now, c.maxAge), now, c.maxAge);
  }

  lemma {:induction false} KeepLiveAllLive(es: seq<Entry>, now: int, maxAge: int)
    requires UniqueKeys(es)
    requires forall j :: 0 <= j < |es| ==> Live(es[j].item, now, maxAge)
    ensures KeepLive(es, now, maxAge) == es
  {
    if |es| > 0 {
      KeepLiveAllLive(es[1..], now, maxAge);
    }
  }

  // ---------------------------------------------------------------------------
  // createFileHash

  type byte = b: nat | b < 256

  /** `b.toString(16).padStart(2, '0')`. */
  function ByteHex(b: byte): string
  {
    PadStart(NatToRadix(b, 16), 2, '0')
  }

  /** A byte is written as its high then low hex digit, lower case. */
  lemma ByteHexDigits(b: byte)
    ensures ByteHex(b) == [DigitChar(b / 16), DigitChar(b % 16)]
  {
    if b >= 16 {
      assert NatToRadix(b / 16, 16) == [DigitChar(b / 16)];
    }
  }

  /** Characters `2j` and `2j + 1` of `hex` are the high and low hex digit of `b`. */
  predicate PairAt(hex: string, j: nat, b: byte)
  {
    2 * j + 1 < |hex| && hex[2 * j] == DigitChar(b / 16) && hex[2 * j + 1] == DigitChar(b % 16)
  }

  /** The hex string of a digest: two lower-case hex characters per byte, in byte order. */
  method HexEncode(bytes: seq<byte>) returns (hex: string)
    ensures |hex| == 2 * |bytes|
    ensures forall i :: 0 <= i < |bytes| ==> PairAt(hex, i, bytes[i])
    ensures forall i :: 0 <= i < |hex| ==> IsDigitChar(hex[i])
  {
    hex := "";
    var i := 0;
    while i < |bytes|
      invariant i <= |bytes| && |hex| == 2 * i
      invariant forall j :: 0 <= j < i ==> PairAt(hex, j, bytes[j])
      invariant forall j :: 0 <= j < |hex| ==> IsDigitChar(hex[j])
    {
      var h := ByteHex(bytes[i]);
      ByteHexDigits(bytes[i]);
      AppendPair(hex, bytes, i);
      hex := hex + h;
      i := i + 1;
    }
  }

  /** Appending the two digits of byte `i` to the hex of bytes `0 .. i - 1` gives the hex of
      bytes `0 .. i`. */
  lemma AppendPair(prev: string, bytes: seq<byte>, i: nat)
    requires i < |bytes| && |prev| == 2 * i
    requires forall j :: 0 <= j < i ==> PairAt(prev, j, bytes[j])
    requires forall j :: 0 <= j < |prev| ==> IsDigitChar(prev[j])
    ensures var hex := prev + [DigitChar(bytes[i] / 16), DigitChar(bytes[i] % 16)];
            (forall j :: 0 <= j < i + 1 ==> PairAt(hex, j, bytes[j]))
            && (forall j :: 0 <= j < |hex| ==> IsDigitChar(hex[j]))
  {
    var hex := prev + [DigitChar(bytes[i] / 16), DigitChar(bytes[i] % 16)];
    forall j | 0 <= j < i ensures PairAt(hex, j, bytes[j]) {
      assert PairAt(prev, j, bytes[j]);
      assert hex[2 * j] == prev[2 * j] && hex[2 * j + 1] == prev[2 * j + 1];
    }
    assert PairAt(hex, i, bytes[i]);
  }

  /** Reads a hex string back into bytes, two characters per byte. */
  function HexDecode(hex: string): (bytes: seq<byte>)
    ensures |bytes| == |hex| / 2
  {
    seq(|hex| / 2, i requires 0 <= i < |hex| / 2 => (DigitValue(hex[2 * i]) % 16) * 16 + DigitValue(hex[2 * i + 1]) % 16)
  }

  /** Decoding the hex of a digest gives the digest back. */
  method HexRoundTrip(bytes: seq<byte>) returns (hex: string)
    ensures HexDecode(hex) == bytes && |hex| == 2 * |bytes|
    ensures forall i :: 0 <= i < |bytes| ==> PairAt(hex, i, bytes[i])
    ensures forall i :: 0 <= i < |hex| ==> IsDigitChar(hex[i])
  {
    hex := HexEncode(bytes);
    forall i | 0 <= i < |bytes| ensures HexDecode(hex)[i] == bytes[i] {
      assert PairAt(hex, i, bytes[i]);
      DigitRoundTrip(bytes[i] / 16);
      DigitRoundTrip(bytes[i] % 16);
    }
  }

  /** `createFileHash`: the hex of the SHA-256 digest of the file's bytes, two lower-case
      hex digits per byte, zero-padded, in byte order. */
  method CreateFileHash(content: seq<byte>, sha256: seq<byte> -> seq<byte>) returns (hash: string)
    ensures |hash| == 2 * |sha256(content)|
    ensures forall i :: 0 <= i < |sha256(content)| ==> PairAt(hash, i, sha256(content)[i])
    ensures forall i :: 0 <= i < |hash| ==> IsDigitChar(hash[i])
    ensures HexDecode(hash) == sha256(content)
  {
    hash := HexRoundTrip(sha256(content));
  }
}
