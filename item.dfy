/** `Item<T>`: one queued observation of a counter or store series. Its identity,
    for `equals` and `hashCode`, is its tag signature alone. */
module Items {
  import opened JavaNumbers
  import opened Common

  datatype Item<T> = Item(tags: string, value: T, expireTime: Long)

  /** `new Item(tags, value, expireTime)` at time `now`: a non-positive lifetime is
      replaced by the package default, and the deadline is `now` plus the lifetime. */
  function NewItem<T>(tags: string, value: T, expireTime: Long, now: Millis, defaultExpireMs: Long): (it: Item<T>)
    ensures it.tags == tags && it.value == value
    ensures it.expireTime == AddLong(now, if expireTime <= 0 then defaultExpireMs else expireTime)
  {
    var lifetime := if expireTime <= 0 then defaultExpireMs else expireTime;
    Item(tags, value, AddLong(now, lifetime))
  }

  /** `new Item(tags, value)`: the two-argument constructor uses the default lifetime, so
      the item lives exactly that long, whatever the default's sign. */
  function DefaultItem<T>(tags: string, value: T, now: Millis, defaultExpireMs: Long): (it: Item<T>)
    ensures it.tags == tags && it.value == value
    ensures it.expireTime == AddLong(now, defaultExpireMs)
  {
    NewItem(tags, value, defaultExpireMs, now, defaultExpireMs)
  }

  /** The distinct tag signatures among `items`. */
  ghost function Signatures<T>(items: seq<Item<T>>): set<string>
  {
    set i | 0 <= i < |items| :: items[i].tags
  }

  /** The signatures of a queue prefix grow by one item's signature per item. */
  lemma SignaturesSnoc<T>(items: seq<Item<T>>)
    requires items != []
    ensures Signatures(items) == Signatures(items[..|items| - 1]) + {items[|items| - 1].tags}
  {
    var n := |items| - 1;
    forall s | s in Signatures(items) ensures s in Signatures(items[..n]) + {items[n].tags} {
      var i :| 0 <= i < |items| && items[i].tags == s;
      if i < n { assert items[..n][i] == items[i]; }
    }
    forall s | s in Signatures(items[..n]) ensures s in Signatures(items) {
      var i :| 0 <= i < n && items[..n][i].tags == s;
      assert items[i].tags == s;
    }
  }

  predicate IsExpired<T>(it: Item<T>, now: Millis)
  {
    now > it.expireTime
  }

  /** With a positive lifetime that does not overflow, the item is expired at `later`
      exactly when `later` is beyond creation time plus lifetime. */
  lemma NewItemExpiry<T>(tags: string, value: T, expireTime: Long, now: Millis, defaultExpireMs: Long, later: Millis)
    requires expireTime > 0 && now + expireTime <= LONG_MAX
    ensures IsExpired(NewItem(tags, value, expireTime, now, defaultExpireMs), later) <==> later > now + expireTime
  {
  }

  /** What `equals(Object obj)` may be handed. */
  datatype Ref<T> = Null | ItemRef(item: Item<T>) | NotAnItem

  /** `equals`: compares tag strings only. Its `this == obj` shortcut is subsumed: the
      same object has the same tags. */
  function Equals<T>(self: Item<T>, obj: Ref<T>): bool
  {
    match obj
    case Null => false
    case ItemRef(other) => self.tags == other.tags
    case NotAnItem => false
  }

  /** A UTF-16 code unit, Java's `char`. */
  type CodeUnit = x: int | 0 <= x < 0x1_0000

  /** How a Java string holds one character: itself below U+10000, otherwise a high
      surrogate followed by a low surrogate that together decode back to it. */
  function Utf16Char(c: char): (units: seq<CodeUnit>)
    ensures (c as int) < 0x1_0000 ==> units == [c as int]
    ensures (c as int) >= 0x1_0000 ==>
      |units| == 2 && 0xD800 <= units[0] < 0xDC00 && 0xDC00 <= units[1] < 0xE000 &&
      0x1_0000 + (units[0] as int - 0xD800) * 0x400 + (units[1] as int - 0xDC00) == c as int
  {
    var v := c as int;
    if v < 0x1_0000 then [v]
    else [0xD800 + (v - 0x1_0000) / 0x400, 0xDC00 + (v - 0x1_0000) % 0x400]
  }

  /** The code units of a string, character by character. */
  function Utf16(s: string): seq<CodeUnit>
  {
    if s == [] then [] else Utf16(s[..|s| - 1]) + Utf16Char(s[|s| - 1])
  }

  /** The loop of `String.hashCode`, `h = 31 * h + u` over the code units, in `int`
      arithmetic. */
  function UnitsHash(units: seq<CodeUnit>): Int
  {
    if units == [] then 0 else WrapInt(31 * UnitsHash(units[..|units| - 1]) + units[|units| - 1])
  }

  /** Java's `String.hashCode`: the loop over the string's UTF-16 code units. */
  function StringHash(s: string): Int
  {
    UnitsHash(Utf16(s))
  }

  /** The same polynomial, `u[0]*31^(n-1) + ... + u[n-1]`, computed exactly. */
  function Polynomial(units: seq<CodeUnit>): int
  {
    if units == [] then 0 else 31 * Polynomial(units[..|units| - 1]) + units[|units| - 1]
  }

  /** `hashCode`: the hash of the tag string. */
  function HashCode<T>(it: Item<T>): Int
  {
    StringHash(it.tags)
  }

  /** Two items are equal exactly when their tags are; value and deadline are ignored. */
  lemma EqualsIffSameTags<T>(a: Item<T>, b: Item<T>)
    ensures Equals(a, ItemRef(b)) <==> a.tags == b.tags
    ensures Equals(a, ItemRef(b)) <==> Equals(b, ItemRef(a))
  {
  }

  /** Reflexive, and never equal to `null` or to an object that is not an item. */
  lemma EqualsReflexiveAndTyped<T>(a: Item<T>)
    ensures Equals(a, ItemRef(a))
    ensures !Equals(a, Null) && !Equals(a, NotAnItem)
  {
  }

  /** `equals` and `hashCode` agree, so a hash map keyed by items is keyed by tag strings. */
  lemma EqualItemsHashEqual<T>(a: Item<T>, b: Item<T>)
    requires Equals(a, ItemRef(b))
    ensures HashCode(a) == HashCode(b)
  {
  }

  /** The overflowing hash loop yields the exact polynomial narrowed to 32 bits. */
  lemma {:induction false} UnitsHashIsWrappedPolynomial(units: seq<CodeUnit>)
    ensures UnitsHash(units) == WrapInt(Polynomial(units))
  {
    if units != [] {
      var init := units[..|units| - 1];
      UnitsHashIsWrappedPolynomial(init);
      WrapIntStep(Polynomial(init), units[|units| - 1]);
    }
  }

  /** The hash of a tag string is its UTF-16 polynomial narrowed to 32 bits. */
  lemma StringHashIsWrappedPolynomial(s: string)
    ensures StringHash(s) == WrapInt(Polynomial(Utf16(s)))
  {
    UnitsHashIsWrappedPolynomial(Utf16(s));
  }

  /** A character outside the basic plane hashes as its surrogate pair: U+1F600 is
      0xD83D, 0xDE00, so its one-character string hashes to 31 * 0xD83D + 0xDE00. */
  lemma SupplementaryCharHash()
    ensures Utf16("\U{1F600}") == [0xD83D, 0xDE00]
    ensures StringHash("\U{1F600}") == 1772899
  {
    assert "\U{1F600}"[..0] == [];
    assert Utf16("\U{1F600}") == [0xD83D, 0xDE00];
    var units: seq<CodeUnit> := [0xD83D, 0xDE00];
    assert units[..1] == [0xD83D] && units[..1][..0] == [];
    assert UnitsHash(units[..1]) == 0xD83D;
  }
}
