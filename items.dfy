/**
 * `MPDItem`, the abstract base of the server's named objects (artists,
 * albums, songs, ...): a mutable nullable `name`, equality by runtime
 * class and name, a hash built from the name, and ordering by name.
 */
module Items {
  import opened Wrappers
  import opened JavaLang

  /** Null-safe `String` equality: both null, or both present and the same characters. */
  predicate NamesEqual(a: Option<string>, b: Option<string>)
  {
    match a
    case None => b.None?
    case Some(x) => b.Some? && x == b.value
  }

  /** Null-safe name equality is plain equality of the optional values. */
  lemma NamesEqualIsEquality(a: Option<string>, b: Option<string>)
    ensures NamesEqual(a, b) <==> a == b
  {
  }

  /**
   * `hashCode()` of an item named `name`: 7, then `31*h + name.length()`,
   * then `31*h + name.hashCode()`, in `int` arithmetic. `name.length()`
   * is evaluated before the null test, so a null name throws
   * NullPointerException, which gives `None`.
   */
  function NameHash(name: Option<string>): (r: Option<int>)
    ensures r.Some? <==> name.Some?
    ensures r.Some? ==> IsInt(r.value)
  {
    match name
    case None => None
    case Some(n) =>
      var h := WrapInt(31 * 7 + |n|);
      Some(WrapInt(31 * h + StringHash(n)))
  }

  /**
   * `compareTo` on the items' string forms: -1 when this one is null (even
   * if the other is null too), 1 when only the other is null, else
   * `String.compareTo`.
   */
  function NameCompare(a: Option<string>, b: Option<string>): int
  {
    if a.None? then -1
    else if b.None? then 1
    else CompareTo(a.value, b.value)
  }

  class Item {
    /** The object's runtime class, as `getClass()` would tell it. */
    const runtimeClass: string
    var name: Option<string>

    /** `new X()` for a concrete subclass `X` (the name stays null) or `new X(name)`. */
    constructor (runtimeClass: string, name: Option<string>)
      ensures this.runtimeClass == runtimeClass && this.name == name
    {
      this.runtimeClass := runtimeClass;
      this.name := name;
    }

    function GetName(): Option<string>
      reads this
    {
      name
    }

    method SetName(name: Option<string>)
      modifies this`name
      ensures this.name == name
    {
      this.name := name;
    }

    /** `toString()` is the name. */
    function ToString(): (r: Option<string>)
      reads this
      ensures r == GetName()
    {
      GetName()
    }

    /** `equals(object)`: the same reference, or an object of the same runtime class with an equal name. */
    predicate Equals(other: Item?)
      reads this, other
    {
      if this == other then true
      else if other == null || other.runtimeClass != runtimeClass then false
      else NamesEqual(name, other.name)
    }

    function HashCode(): Option<int>
      reads this
    {
      NameHash(name)
    }

    function CompareTo(item: Item): int
      reads this, item
    {
      NameCompare(ToString(), item.ToString())
    }
  }

  /** Against another item, `equals` holds exactly when the classes match and the names are equal. */
  lemma EqualsCharacterized(a: Item, b: Item?)
    ensures a.Equals(b) <==> b != null && b.runtimeClass == a.runtimeClass && b.name == a.name
  {
  }

  /** `equals` is reflexive, symmetric and transitive. */
  lemma EqualsIsEquivalence(a: Item, b: Item, c: Item)
    ensures a.Equals(a)
    ensures a.Equals(b) ==> b.Equals(a)
    ensures a.Equals(b) && b.Equals(c) ==> a.Equals(c)
  {
    EqualsCharacterized(a, b);
    EqualsCharacterized(b, a);
    EqualsCharacterized(b, c);
    EqualsCharacterized(a, c);
  }

  /** Equal items hash equally, and hashing succeeds exactly when the name is non-null. */
  lemma EqualItemsHashEqually(a: Item, b: Item)
    requires a.Equals(b)
    ensures a.HashCode() == b.HashCode()
    ensures a.HashCode().Some? <==> a.name.Some?
  {
    EqualsCharacterized(a, b);
  }

  /** The null cases of `compareTo`: -1 whenever this name is null, 1 when only the other is. */
  lemma CompareToNullNames(a: Item, b: Item)
    ensures a.name.None? ==> a.CompareTo(b) == -1 && (b.name.None? ==> b.CompareTo(a) == -1)
    ensures a.name.Some? && b.name.None? ==> a.CompareTo(b) == 1
  {
  }

  /**
   * With both names present, `compareTo` is negative exactly when this
   * name precedes the other lexicographically, zero exactly when they are
   * equal, and swapping the items negates it.
   */
  lemma CompareToNames(a: Item, b: Item)
    requires a.name.Some? && b.name.Some?
    ensures a.CompareTo(b) < 0 <==> LexLess(a.name.value, b.name.value)
    ensures a.CompareTo(b) == 0 <==> a.name == b.name
    ensures b.CompareTo(a) == -a.CompareTo(b)
  {
    CompareToLex(a.name.value, b.name.value);
    CompareToZero(a.name.value, b.name.value);
    CompareToAntisymmetric(a.name.value, b.name.value);
  }
}
